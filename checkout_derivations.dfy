/**
 * The values the bridge derives from the cart's current checkout: the pricing
 * line items, the shipping-method list, the default shipping method and the
 * event-response snapshot.
 */
module CheckoutDerivations {
  import opened Wrappers
  import opened CheckoutTypes

  /** Payment setup can never be shown on Android, whatever the settings (even none). */
  function CanShowPaymentSetup(settings: Option<PaymentSettings>): (canShow: bool)
    ensures !canShow
  {
    false
  }

  /**
   * Tax, subtotal and total are copied; the shipping price is read only when
   * the checkout requires shipping, and a failed read leaves it absent.
   */
  function PricingLineItemsFromCheckout(c: CheckoutData): (items: PricingLineItems)
    ensures items.taxPrice == c.totalTax
    ensures items.subtotal == c.subtotalPrice
    ensures items.totalPrice == c.totalPrice
    ensures items.shippingPrice.Some? <==> c.requiresShipping && c.shippingLinePrice.Some?
    ensures items.shippingPrice.Some? ==> items.shippingPrice == c.shippingLinePrice
  {
    var shippingPrice := if c.requiresShipping then c.shippingLinePrice else None;
    PricingLineItems(c.totalTax, c.subtotalPrice, c.totalPrice, shippingPrice)
  }

  /** Absence of a shipping price is kept as absence, never turned into zero. */
  lemma NoShippingPriceWithoutShipping(c: CheckoutData)
    requires !c.requiresShipping
    ensures PricingLineItemsFromCheckout(c).shippingPrice == None
    ensures PricingLineItemsFromCheckout(c).shippingPrice != Some(0.0)
  {
  }

  /** The shipping method offered for one rate. */
  function MethodFromRate(rate: ShippingRate): ShippingMethod
  {
    ShippingMethod(rate.title, rate.price, rate.handle)
  }

  /** One shipping method per rate, in the rates' order. */
  function ShippingMethodsOf(rates: seq<ShippingRate>): (methods: seq<ShippingMethod>)
    ensures |methods| == |rates|
    ensures forall i :: 0 <= i < |rates| ==>
      methods[i].title == rates[i].title && methods[i].price == rates[i].price
      && methods[i].identifier == rates[i].handle
  {
    if rates == [] then []
    else ShippingMethodsOf(rates[..|rates| - 1]) + [MethodFromRate(rates[|rates| - 1])]
  }

  /**
   * The shipping methods for the checkout's available rates, built by a loop
   * over the rates; a checkout whose rates were not queried raises instead of
   * returning a partial list.
   */
  method GetShippingMethods(c: CheckoutData) returns (r: Result<seq<ShippingMethod>, Exception>)
    ensures r.Ok? <==> c.availableShippingRates.Some?
    ensures r.Ok? ==> r.value == ShippingMethodsOf(c.availableShippingRates.value)
    ensures r.Err? ==> r.error == ShippingRatesNotQueried
  {
    if c.availableShippingRates.None? {
      return Err(ShippingRatesNotQueried);
    }
    var rates := c.availableShippingRates.value;
    var methods: seq<ShippingMethod> := [];
    for i := 0 to |rates|
      invariant methods == ShippingMethodsOf(rates[..i])
    {
      assert rates[..i + 1][..i] == rates[..i];
      methods := methods + [MethodFromRate(rates[i])];
    }
    assert rates[..|rates|] == rates;
    return Ok(methods);
  }

  /** The default shipping method: the first one, or none for an empty list. */
  function DefaultShippingMethod(methods: seq<ShippingMethod>): Option<ShippingMethod>
  {
    if |methods| > 0 then Some(methods[0]) else None
  }

  /** The default method is built from the first rate the cart lists; no rates, no default. */
  lemma DefaultIsFirstRate(rates: seq<ShippingRate>)
    ensures DefaultShippingMethod(ShippingMethodsOf(rates)).Some? <==> |rates| > 0
    ensures |rates| > 0 ==> DefaultShippingMethod(ShippingMethodsOf(rates)) == Some(MethodFromRate(rates[0]))
  {
  }

  /**
   * The event-response snapshot: merchant name and country code as stored by
   * the last checkout start, everything else from the current checkout.
   */
  function EventResponse(merchantName: Option<string>, countryCode: Option<string>, c: CheckoutData)
    : Result<AndroidPayEventResponse, Exception>
  {
    match c.availableShippingRates
    case None => Err(ShippingRatesNotQueried)
    case Some(rates) =>
      Ok(AndroidPayEventResponse(merchantName, PricingLineItemsFromCheckout(c), c.currencyCode,
                                 countryCode, c.requiresShipping, ShippingMethodsOf(rates)))
  }
}
