/** The cart page: its summary figures and the payloads its line buttons dispatch. */
module CartContent {
  import opened Wrappers
  import opened Types
  import opened CartSlice
  import opened Pricing

  /** What the cart page shows: the empty state, or the order summary. */
  datatype CartPageView =
    | EmptyCart
    | Summary(lineCount: nat, subtotal: real, shipping: real, freeShippingHint: Option<real>, total: real)

  function CartPage(items: seq<CartItem>): (v: CartPageView)
    ensures v.EmptyCart? <==> items == []
    ensures v.Summary? ==>
              v.lineCount == |items| && v.subtotal == CartTotal(items) &&
              v.shipping == Shipping(v.subtotal) && v.total == CartPageTotal(v.subtotal)
    ensures v.Summary? ==>
              (v.freeShippingHint.Some? <==> v.subtotal < FreeShippingThreshold) &&
              (v.freeShippingHint.Some? ==>
                 v.freeShippingHint.value > 0.0 && v.subtotal + v.freeShippingHint.value == FreeShippingThreshold)
  {
    if |items| == 0 then EmptyCart
    else
      var subtotal := CartTotal(items);
      var shipping := Shipping(subtotal);
      Summary(|items|, subtotal, shipping,
              if shipping > 0.0 then Some(50.0 - subtotal) else None,
              subtotal + shipping)
  }

  /** The trash button. */
  function RemovePayload(item: CartItem): (a: CartAction)
    ensures a.RemoveFromCart? && a.productId == item.product.id
  {
    RemoveFromCart(item.product.id)
  }

  /** The minus button: one less than the line shows. */
  function MinusPayload(item: CartItem): (a: CartAction)
    ensures a.UpdateQuantity? && a.productId == item.product.id && a.quantity + 1 == item.quantity
  {
    UpdateQuantity(item.product.id, item.quantity - 1)
  }

  /** The plus button: one more than the line shows. */
  function PlusPayload(item: CartItem): (a: CartAction)
    ensures a.UpdateQuantity? && a.productId == item.product.id && a.quantity == item.quantity + 1
  {
    UpdateQuantity(item.product.id, item.quantity + 1)
  }

  /** Minus on a line of quantity 1 removes that line. */
  lemma MinusAtOneRemoves(items: seq<CartItem>, i: nat)
    requires i < |items| && items[i].quantity == 1
    ensures var a := MinusPayload(items[i]);
            Updated(items, a.productId, a.quantity) == Removed(items, items[i].product.id)
  {
    UpdateNonPositiveIsRemove(items, items[i].product.id, 0);
  }

  /** In a well-formed cart, plus on a line is the same as adding that line's
      product again. */
  lemma PlusIsAddToCart(items: seq<CartItem>, i: nat)
    requires WellFormed(items) && i < |items|
    ensures var a := PlusPayload(items[i]);
            Updated(items, a.productId, a.quantity) == Added(items, items[i].product)
  {
    LineIndexOfLine(items, i);
    var id := items[i].product.id;
    var line := CartItem(items[i].product, items[i].quantity + 1);
    assert InCart(items, id);
    var r := Updated(items, id, items[i].quantity + 1);
    assert forall j :: 0 <= j < |items| ==> r[j] == items[i := line][j];
    assert r == items[i := line];
    assert Added(items, items[i].product) == items[i := line];
  }

  /** The "(n items)" label counts lines, not units: one line of three units reads "(1 items)". */
  lemma LineCountIsNotUnitCount(p: Product)
    ensures var items := [CartItem(p, 3)];
            CartPage(items).lineCount == 1 && CartItemsCount(items) == 3
  {
    var items := [CartItem(p, 3)];
    assert items[..0] == [];
  }
}
