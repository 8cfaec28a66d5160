/** The money rules shared by the checkout form, the cart page, the cart
    drawer and the order details: a flat shipping fee below a threshold and
    a tax on the subtotal only. */
module Pricing {
  const FreeShippingThreshold: real := 50.0
  const ShippingFee: real := 5.0
  /** 8%, exactly 8/100. */
  const TaxRate: real := 0.08

  function Shipping(subtotal: real): (fee: real)
    ensures fee == 0.0 <==> subtotal >= FreeShippingThreshold
    ensures fee == 0.0 || fee == ShippingFee
  {
    if subtotal >= FreeShippingThreshold then 0.0 else ShippingFee
  }

  function Tax(subtotal: real): (tax: real)
    ensures subtotal >= 0.0 ==> 0.0 <= tax <= subtotal
  {
    subtotal * TaxRate
  }

  /** The checkout total: subtotal, shipping and tax. */
  function CheckoutTotal(subtotal: real): (total: real)
    ensures subtotal >= FreeShippingThreshold ==> total == subtotal * 1.08
    ensures subtotal < FreeShippingThreshold ==> total == subtotal * 1.08 + 5.0
  {
    subtotal + Shipping(subtotal) + Tax(subtotal)
  }

  /** The total on the cart page and in the drawer: subtotal and shipping, no tax. */
  function CartPageTotal(subtotal: real): (total: real)
    ensures subtotal >= FreeShippingThreshold ==> total == subtotal
    ensures subtotal < FreeShippingThreshold ==> total == subtotal + 5.0
  {
    subtotal + Shipping(subtotal)
  }

  /** Tax is linear in the subtotal, so it is the same whether lines are taxed
      one by one or all together. */
  lemma TaxAdditive(a: real, b: real)
    ensures Tax(a + b) == Tax(a) + Tax(b)
  {
  }

  /** The checkout total exceeds the cart-page total by the tax alone. */
  lemma CheckoutTotalIsCartPageTotalPlusTax(subtotal: real)
    ensures CheckoutTotal(subtotal) == CartPageTotal(subtotal) + Tax(subtotal)
  {
  }

  /** Reaching the threshold can lower what the customer pays: 49 costs
      57.92 at checkout, 50 costs 54. */
  lemma FreeShippingCanLowerTotal()
    ensures CheckoutTotal(49.0) == 57.92 && CheckoutTotal(50.0) == 54.0
    ensures CartPageTotal(49.0) > CartPageTotal(50.0)
  {
  }
}
