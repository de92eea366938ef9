# Android native checkout bridge, modelled in Dafny

This project models the Android side of the Unity Buy SDK's native checkout:
the controller `AndroidNativeCheckout` that connects a Unity application's
cart to the Android Pay plugin, and the status payload
`AndroidPayCheckoutResponse` it sends back when a payment completes.

The controller:

- keeps at most one pending "can checkout?" callback; a new query displaces the
  old one, which is told `false`;
- stores one checkout session's success, cancel and failure callbacks, the
  merchant name and the country code;
- reacts to the plugin's events: capability result, shipping address,
  shipping line, confirmation, native error and cancel;
- calls the cart (`CartState`) for each event and turns the cart's success or
  error into a response to the plugin's message and/or one terminal callback.

## Layout

| file | module | contents |
|---|---|---|
| wrappers.dfy | `Wrappers` | `Option`, `Result` |
| checkout_types.dfy | `CheckoutTypes` | shop settings, the checkout fields the bridge reads, messages, payments, errors |
| checkout_response.dfy | `CheckoutResponses` | the `Status` enum and the `{status}` payload |
| checkout_derivations.dfy | `CheckoutDerivations` | pricing line items, shipping methods, default method, event snapshot |
| bridge_effects.dfy | `BridgeEffects` | the effects the bridge has on the outside world, and the effects of each step |
| native_checkout.dfy | `NativeCheckout` | the class `AndroidNativeCheckout`: its fields and every handler |
| bridge_properties.dfy | `BridgeProperties` | lemmas: responses, callbacks, cancellation, scenarios |

## How the outside world is represented

- Everything the controller does outward is appended to its `trace`:
  - a native call, by method name with its positional arguments;
  - attaching the event bridge;
  - a cart operation;
  - a response to a message (paired by the message id);
  - an invocation of a callback;
  - an exception.
- The cart's current checkout is a `CheckoutData` parameter. Each handler
  receives it at the moment the source reads `CartState.CurrentCheckout`.
- A cart operation takes a completion lambda. Here the handler returns that
  lambda as a `Continuation` value. The cart later runs it through
  `Complete(k, error, current)`:
  - `error` is `None` when the operation succeeded;
  - `current` is the checkout as it stands at that moment.
- Invoking a callback field that is still null (no checkout has been started,
  or no capability query is pending) throws in C#. It is recorded as
  `Raise(NullCallback)`. In every path but one, that invocation is the last
  statement. The exception is the capability result, where the slot is
  cleared after the invocation. When the invocation throws, that slot is
  already null, so skipping the clearing changes nothing.
- `AndroidPayCheckoutResponse` is an immutable datatype value, so its status
  is fixed when it is constructed.
- The class invariant `Valid()` says three things:
  - the event bridge has been attached exactly when a checkout has started;
  - it has been attached at most once;
  - a started checkout has stored all three callbacks, the merchant name and
    the country code.

## Behaviour kept as the code has it

- A cancel does not suppress a cart completion that is still in flight. The
  completion still answers its message and runs its own terminal callback
  after the cancel callback (`BridgeProperties.CancelDoesNotSuppressCompletion`).
  One might expect a cancel to suppress the completion; the code has no such
  guard.
- The tokenized payment's idempotency key is the payment's transaction
  identifier. One might expect a separate idempotency key from the native
  side; the code uses `TransactionIdentifier`.
- When reading the shipping line's price fails, the failure is swallowed.
  The shipping price is then absent.
- When the checkout's shipping rates were not queried, reading them raises.
  The model records `Raise(ShippingRatesNotQueried)` and the step ends without
  a response.
- Events are not checked against the session's state. An event that arrives
  out of order is processed against whatever state exists.

## Model

| member | source | states |
|---|---|---|
| `NativeCheckout.AndroidNativeCheckout.constructor` | Assets/Shopify/Unity/SDK/Android/AndroidNativeCheckout.cs:41-51 | a new controller has no pending query, no session, no attached bridge and has done nothing |
| `CheckoutDerivations.CanShowPaymentSetup` | Assets/Shopify/Unity/SDK/Android/AndroidNativeCheckout.cs:60-62 | payment setup can never be shown, for any settings including none |
| `NativeCheckout.AndroidNativeCheckout.CanCheckout` | Assets/Shopify/Unity/SDK/Android/AndroidNativeCheckout.cs:79-94 | with Android Pay the slot afterwards holds exactly the new callback; without it the slot is unchanged; the effects are those of `CanCheckoutEffects`; no other field changes |
| `BridgeProperties.CanCheckoutUnsupported` | Assets/Shopify/Unity/SDK/Android/AndroidNativeCheckout.cs:91-93 | without Android Pay: no native call, and the caller's callback is resolved exactly once, with `false` |
| `BridgeProperties.CanCheckoutSupported` | Assets/Shopify/Unity/SDK/Android/AndroidNativeCheckout.cs:80-90 | with Android Pay: exactly one capability call carrying the accepted card brands, made first; the previously pending callback, if any, is resolved exactly once with `false`; the new callback is not resolved |
| `NativeCheckout.AndroidNativeCheckout.Checkout` | Assets/Shopify/Unity/SDK/Android/AndroidNativeCheckout.cs:114-150 | all three callbacks are overwritten; the merchant name and country code are stored; one native start call carries, in order, merchant, key, pricing items, currency, country and requires-shipping; the event bridge is attached only if it was not attached before |
| `NativeCheckout.AndroidNativeCheckout.GetAndroidPayEventResponse` | Assets/Shopify/Unity/SDK/Android/AndroidNativeCheckout.cs:159-167 | the snapshot takes merchant name and country code from the last checkout start, and currency, requires-shipping, pricing items and shipping methods from the current checkout; it fails exactly when the rates were not queried |
| `CheckoutDerivations.PricingLineItemsFromCheckout` | Assets/Shopify/Unity/SDK/Android/AndroidNativeCheckout.cs:179-190 | tax, subtotal and total are copied; a shipping price is present exactly when shipping is required and the line's price can be read, and then it equals that price |
| `CheckoutDerivations.NoShippingPriceWithoutShipping` | Assets/Shopify/Unity/SDK/Android/AndroidNativeCheckout.cs:183-188 | without required shipping the shipping price is absent, not zero |
| `CheckoutDerivations.ShippingMethodsOf` | Assets/Shopify/Unity/SDK/Android/AndroidNativeCheckout.cs:206-208 | one shipping method per rate, same length and same order, with the title, price and handle of the rate at the same index |
| `CheckoutDerivations.GetShippingMethods` | Assets/Shopify/Unity/SDK/Android/AndroidNativeCheckout.cs:199-214 | the loop returns exactly the methods of all available rates; missing rates raise instead of returning a partial list |
| `CheckoutDerivations.DefaultIsFirstRate` | Assets/Shopify/Unity/SDK/Android/AndroidNativeCheckout.AndroidPayEventReceiver.cs:157-163 | a default method exists exactly when there are rates, and it is built from the first rate |
| `NativeCheckout.AndroidNativeCheckout.OnCanCheckoutWithAndroidPayResult` | Assets/Shopify/Unity/SDK/Android/AndroidNativeCheckout.AndroidPayEventReceiver.cs:24-28 | the pending callback gets the plugin's answer and the slot is cleared; with no pending callback the call raises |
| `NativeCheckout.AndroidNativeCheckout.OnUpdateShippingAddress` | Assets/Shopify/Unity/SDK/Android/AndroidNativeCheckout.AndroidPayEventReceiver.cs:39-50 | the address goes to the cart, and the completion for that message is handed over |
| `NativeCheckout.AndroidNativeCheckout.CompleteShippingAddress` | Assets/Shopify/Unity/SDK/Android/AndroidNativeCheckout.AndroidPayEventReceiver.cs:43-50 | on success the default line is selected, otherwise an error response and the failure callback follow; the next completion is set exactly when a default line is set |
| `BridgeProperties.ShippingAddressFailure` | Assets/Shopify/Unity/SDK/Android/AndroidNativeCheckout.AndroidPayEventReceiver.cs:46-49 | a failed address produces exactly one error response on the message and exactly one failure callback |
| `BridgeProperties.ShippingAddressSuccess` | Assets/Shopify/Unity/SDK/Android/AndroidNativeCheckout.AndroidPayEventReceiver.cs:44-45 | an accepted address produces no response and no callback at this step; it sets the first rate's line, and with no rates does nothing |
| `BridgeProperties.ShippingAddressEventRespondsOnce` | Assets/Shopify/Unity/SDK/Android/AndroidNativeCheckout.AndroidPayEventReceiver.cs:39-50 | when the checkout has at least one queried rate, over a whole accepted-address exchange the message gets exactly one response, and a callback runs only if setting the line fails (with no rates the message gets no response; see `ShippingAddressSuccess`) |
| `BridgeProperties.TwoRateScenario` | Assets/Shopify/Unity/SDK/Android/AndroidNativeCheckout.AndroidPayEventReceiver.cs:157-163 | with rates Standard/h1 then Express/h2, the accepted address selects h1 and the snapshot lists both methods in that order |
| `NativeCheckout.AndroidNativeCheckout.OnUpdateShippingLine` | Assets/Shopify/Unity/SDK/Android/AndroidNativeCheckout.AndroidPayEventReceiver.cs:61-66 | the chosen method's identifier goes to the cart |
| `NativeCheckout.AndroidNativeCheckout.UpdateShippingLineWithDefault` | Assets/Shopify/Unity/SDK/Android/AndroidNativeCheckout.AndroidPayEventReceiver.cs:157-163 | sets the line of element 0 of the method list; an empty list does nothing; missing rates raise |
| `NativeCheckout.AndroidNativeCheckout.UpdateShippingLine` | Assets/Shopify/Unity/SDK/Android/AndroidNativeCheckout.AndroidPayEventReceiver.cs:175-184 | the line is set by the method's identifier and the completion for the message is handed over |
| `NativeCheckout.AndroidNativeCheckout.CompleteShippingLine` | Assets/Shopify/Unity/SDK/Android/AndroidNativeCheckout.AndroidPayEventReceiver.cs:176-183 | on success it responds with the event snapshot; on failure it sends an error response and calls the failure callback |
| `BridgeProperties.ShippingLineResponse` | Assets/Shopify/Unity/SDK/Android/AndroidNativeCheckout.AndroidPayEventReceiver.cs:177-182 | exactly one response either way: on success (rates queried) the snapshot and no callback; on failure, whatever the rates, the error and one failure callback |
| `NativeCheckout.AndroidNativeCheckout.OnConfirmCheckout` | Assets/Shopify/Unity/SDK/Android/AndroidNativeCheckout.AndroidPayEventReceiver.cs:76-97 | the email goes to the cart first; the tokenized input has the current total as amount, the transaction identifier as idempotency key, type "android_pay", and the payment's billing address, data and identifier |
| `BridgeProperties.ConfirmTokenizedInput` | Assets/Shopify/Unity/SDK/Android/AndroidNativeCheckout.AndroidPayEventReceiver.cs:81-91 | after the email is accepted, the only effect is the tokenized checkout with that input, whose fields come from the total and the payment as listed |
| `NativeCheckout.AndroidNativeCheckout.CompleteEmail` | Assets/Shopify/Unity/SDK/Android/AndroidNativeCheckout.AndroidPayEventReceiver.cs:89-96 | on success the tokenized checkout is performed; on failure it sends an error response and calls the failure callback |
| `BridgeProperties.EmailFailure` | Assets/Shopify/Unity/SDK/Android/AndroidNativeCheckout.AndroidPayEventReceiver.cs:92-95 | a rejected email: one error response, one failure callback, and the tokenized checkout is never attempted |
| `NativeCheckout.AndroidNativeCheckout.PerformCheckout` | Assets/Shopify/Unity/SDK/Android/AndroidNativeCheckout.AndroidPayEventReceiver.cs:110-122 | the tokenized input goes to the cart and the completion for the message is handed over |
| `NativeCheckout.AndroidNativeCheckout.CompleteTokenizedCheckout` | Assets/Shopify/Unity/SDK/Android/AndroidNativeCheckout.AndroidPayEventReceiver.cs:111-121 | it responds with the `Success` or `Failure` status payload, then runs the success or the failure callback |
| `BridgeProperties.TokenizedCheckoutOutcome` | Assets/Shopify/Unity/SDK/Android/AndroidNativeCheckout.AndroidPayEventReceiver.cs:112-120 | exactly one status response and exactly one terminal callback, and they agree: Success goes with the success callback, Failure with the failure callback |
| `BridgeProperties.StatusPayloadsDiffer` | Assets/Shopify/Unity/SDK/Android/AndroidNativeCheckout.AndroidPayEventReceiver.cs:113-118 | the success and failure status payloads differ |
| `NativeCheckout.AndroidNativeCheckout.OnError` | Assets/Shopify/Unity/SDK/Android/AndroidNativeCheckout.AndroidPayEventReceiver.cs:131-137 | the failure callback is invoked, and nothing else happens |
| `BridgeProperties.NativeErrorNeverResponds` | Assets/Shopify/Unity/SDK/Android/AndroidNativeCheckout.AndroidPayEventReceiver.cs:131-137 | no message gets a response; the failure callback runs once with a NativePaymentProcessingError carrying the message content |
| `NativeCheckout.AndroidNativeCheckout.OnCancel` | Assets/Shopify/Unity/SDK/Android/AndroidNativeCheckout.AndroidPayEventReceiver.cs:146-148 | the cancel callback is invoked whatever the message, and nothing else happens |
| `BridgeProperties.CancelNeverResponds` | Assets/Shopify/Unity/SDK/Android/AndroidNativeCheckout.AndroidPayEventReceiver.cs:146-148 | no message gets a response; the cancel callback runs once |
| `BridgeProperties.CancelDoesNotSuppressCompletion` | Assets/Shopify/Unity/SDK/Android/AndroidNativeCheckout.AndroidPayEventReceiver.cs:146-148 | a payment completing after a cancel still responds once and runs its own callback, so two terminal callbacks run |
| `NativeCheckout.AndroidNativeCheckout.RespondError` | Assets/Shopify/Unity/SDK/Android/AndroidNativeCheckout.AndroidPayEventReceiver.cs:197-199 | one error response on the message |
| `CheckoutResponses.AndroidPayCheckoutResponse.ToJson` | Assets/Shopify/Unity/SDK/Android/AndroidPayCheckoutResponse.cs:23-27 | a map with exactly one key, "status", holding the status's name |
| `CheckoutResponses.StatusSerialisation` | Assets/Shopify/Unity/SDK/Android/AndroidPayCheckoutResponse.cs:11-27 | Success serialises to "Success" and Failure to "Failure" |
| `CheckoutResponses.ToJsonInjective` | Assets/Shopify/Unity/SDK/Android/AndroidPayCheckoutResponse.cs:11-27 | two responses have the same payload exactly when they are equal |

## Left out

- The Android session object and its `testing` flag, created in the constructor: this is JNI plumbing with no logic.
- The unit-test build, which compiles out the native calls and the bridge attach: only the device build is modelled.
- `ShowPaymentSetup`: it is empty on Android.
- Parsing of messages and payloads: `NativeMessage.CreateFromJSON`, `Json.Deserialize`, `bool.Parse`, `MailingAddressInput`, `NativePayment`, `ShippingMethod.CreateFromJson`. Their results are inputs, and their parse failures are not modelled.
- Serialisation with `ToJsonString`: payloads are datatypes, not JSON text.
- `PaymentNetwork.NetworksFromCardBrands`: this code is not part of this model. The capability call's argument carries the accepted card brands it is computed from.
- Formatting of decimals and enum names: a shipping method carries the rate's price as a decimal, not its string. Currency and country codes are given as their names.
- The internals of `CartState`: its operations are recorded calls, and their completions are run by `Complete`.
- `ShopifyError` kinds other than `NativePaymentProcessingError`, and the serialised form of an error response.
- Unity threading and the scheduling of plugin events: each handler and each completion runs as one atomic step.
- Where an exception goes after it is raised (the plugin's or the cart's caller): the model records it and ends the step.
- Callbacks that call back into the controller: each step is atomic here. In the source, `CanCheckout` calls the displaced callback before storing the new one, and the capability result calls the callback before clearing the slot. A callback that calls `CanCheckout` again could therefore be told `false` twice, or have the callback it just stored cleared or replaced. `CanCheckoutSupported` and the single pending slot hold only for callbacks that do not call back in.
- Null delegates passed by the application: a `CallbackId` is never null. The source throws when it invokes a null callback passed to `CanCheckout` (when Android Pay is unsupported). It also stores null callbacks passed to `Checkout`, which then throw when invoked. `Valid()` assumes a started session holds all three callbacks.
- Checkout fields that were not queried: the model treats tax, subtotal, total, currency code and the requires-shipping flag as always readable. In the source, reading an unqueried field throws, and these reads are not inside any try. Only the shipping line's price and the available shipping rates model the throwing read.
- Suppressing completions after a cancel, guarding against out-of-order events, and timeouts: the code does none of these.
