/** The checkout form: its money figures, the prefilled fields, and the
    order-placing sequence of its submit handler. */
module CheckoutForm {
  import opened Wrappers
  import opened Types
  import opened Decimal
  import opened CartSlice
  import opened Pricing

  // ----- Figures -----

  /** What the checkout page renders for the cart: a redirect to /cart when
      it is empty, otherwise the summary. */
  datatype CheckoutView =
    | RedirectToCart
    | Summary(subtotal: real, shipping: real, tax: real, total: real)

  function CheckoutPage(items: seq<CartItem>): (v: CheckoutView)
    ensures v.RedirectToCart? <==> items == []
    ensures v.Summary? ==>
              v.subtotal == CartTotal(items) && v.shipping == Shipping(v.subtotal) &&
              v.tax == Tax(v.subtotal) && v.total == CheckoutTotal(v.subtotal)
  {
    if |items| == 0 then RedirectToCart
    else
      var subtotal := CartTotal(items);
      Summary(subtotal, Shipping(subtotal), Tax(subtotal), subtotal + Shipping(subtotal) + Tax(subtotal))
  }

  /** Two units at 10 and one at 5: subtotal 25, shipping 5, tax 2, total 32. */
  lemma ExampleCheckout(a: Product, b: Product)
    requires a.price == 10.0 && b.price == 5.0
    ensures CheckoutPage([CartItem(a, 2), CartItem(b, 1)]) == Summary(25.0, 5.0, 2.0, 32.0)
  {
    var items := [CartItem(a, 2), CartItem(b, 1)];
    assert items[..1] == [CartItem(a, 2)];
    assert items[..1][..0] == [];
    assert CartTotal(items[..1]) == 20.0;
    assert CartTotal(items) == 25.0;
  }

  // ----- Form fields -----

  /** The form's fields by input name. */
  type FormData = map<string, string>

  /** Every input of the form has an entry. */
  predicate HasAllFields(form: FormData) {
    "email" in form && "firstName" in form && "lastName" in form && "address" in form &&
    "city" in form && "state" in form && "zipcode" in form && "country" in form &&
    "cardNumber" in form && "expiry" in form && "cvc" in form
  }

  /** `x || ""` for an optional string. */
  function OrEmpty(s: Option<string>): string {
    if s.Some? then s.value else ""
  }

  /** The fields as first rendered, prefilled from the signed-in user. */
  function InitialForm(user: Option<User>): (f: FormData)
    ensures HasAllFields(f)
    ensures f["state"] == "" && f["country"] == "US"
    ensures f["cardNumber"] == "" && f["expiry"] == "" && f["cvc"] == ""
    ensures user.None? ==>
              f["email"] == "" && f["firstName"] == "" && f["lastName"] == "" &&
              f["address"] == "" && f["city"] == "" && f["zipcode"] == ""
    ensures user.Some? ==>
              f["email"] == user.value.email && f["firstName"] == user.value.name.firstname &&
              f["lastName"] == user.value.name.lastname
    ensures user.Some? && user.value.address.Some? ==>
              f["address"] == user.value.address.value.street && f["city"] == user.value.address.value.city &&
              f["zipcode"] == user.value.address.value.zipcode
    ensures (user.None? || user.value.address.None?) ==> f["address"] == "" && f["city"] == "" && f["zipcode"] == ""
  {
    var address := if user.Some? then user.value.address else None;
    map[
      "email" := if user.Some? then user.value.email else "",
      "firstName" := if user.Some? then user.value.name.firstname else "",
      "lastName" := if user.Some? then user.value.name.lastname else "",
      "address" := OrEmpty(if address.Some? then Some(address.value.street) else None),
      "city" := OrEmpty(if address.Some? then Some(address.value.city) else None),
      "state" := "",
      "zipcode" := OrEmpty(if address.Some? then Some(address.value.zipcode) else None),
      "country" := "US",
      "cardNumber" := "",
      "expiry" := "",
      "cvc" := ""]
  }

  // ----- The order -----

  /** "ORD-" followed by the millisecond timestamp. */
  function OrderId(now: nat): (id: string)
    ensures |id| > 4 && id[..4] == "ORD-" && AllDigits(id[4..])
  {
    "ORD-" + NatToString(now)
  }

  /** Orders placed at different instants get different ids. */
  lemma OrderIdInjective(a: nat, b: nat)
    requires OrderId(a) == OrderId(b)
    ensures a == b
  {
    assert NatToString(a) == OrderId(a)[4..];
    assert NatToString(b) == OrderId(b)[4..];
    NatToStringRoundTrip(a);
    NatToStringRoundTrip(b);
  }

  /** The order record built from the cart and the form; it carries no user id. */
  function NewOrder(id: string, items: seq<CartItem>, form: FormData, createdAt: string): (o: Order)
    requires HasAllFields(form)
    ensures o.id == id && o.items == items && o.status == Processing && o.userId == None
    ensures o.total == CheckoutTotal(CartTotal(items))
    ensures o.shippingAddress == ShippingAddress(form["firstName"] + " " + form["lastName"], form["address"],
                                                 form["city"], form["zipcode"], form["country"])
    ensures o.createdAt == createdAt
  {
    var subtotal := CartTotal(items);
    Order(id, None, items, subtotal + Shipping(subtotal) + Tax(subtotal), Processing,
          ShippingAddress(form["firstName"] + " " + form["lastName"], form["address"], form["city"],
                          form["zipcode"], form["country"]),
          createdAt)
  }

  /** `JSON.parse(localStorage.getItem("orders") || "[]")`: a missing or empty
      entry reads as no orders; `parseOrders` is None where JSON.parse throws. */
  function ExistingOrders(saved: Option<string>, parseOrders: string -> Option<seq<Order>>): (r: Option<seq<Order>>)
    ensures saved.None? || saved == Some("") ==> r == Some([])
    ensures saved.Some? && saved.value != "" ==> r == parseOrders(saved.value)
  {
    if saved.None? || saved.value == "" then Some([]) else parseOrders(saved.value)
  }

  /** The confirmation page's path; the order id is everything after its fixed prefix. */
  function SuccessPath(orderId: string): (p: string)
    ensures |p| == 26 + |orderId|
    ensures p[..26] == "/checkout/success?orderId=" && p[26..] == orderId
  {
    "/checkout/success?orderId=" + orderId
  }

  class CheckoutFormState {
    var formData: FormData
    var isProcessing: bool

    constructor (user: Option<User>)
      ensures formData == InitialForm(user) && !isProcessing
    {
      formData := InitialForm(user);
      isProcessing := false;
    }

    /** `{ ...prev, [name]: value }`. */
    method HandleInputChange(name: string, value: string)
      modifies this
      ensures formData == old(formData)[name := value] && isProcessing == old(isProcessing)
      ensures old(HasAllFields(formData)) ==> HasAllFields(formData)
    {
      formData := formData[name := value];
    }

    /** Places the order: prepends it to the stored orders, then clears the
        cart, then navigates to the success page. Unreadable stored orders
        make JSON.parse throw: nothing is written, the cart is kept and the
        form stays in its processing state. Returns the list written to
        storage and the navigation target. */
    method HandleSubmit(cart: CartStore, savedOrders: Option<string>,
                        parseOrders: string -> Option<seq<Order>>, now: nat, createdAt: string)
      returns (written: Option<seq<Order>>, navigate: Option<string>)
      requires HasAllFields(formData)
      modifies this, cart
      ensures isProcessing && formData == old(formData)
      ensures var existing := ExistingOrders(savedOrders, parseOrders);
              var order := NewOrder(OrderId(now), old(cart.items), formData, createdAt);
              (existing.None? ==> written.None? && navigate.None? && cart.items == old(cart.items)) &&
              (existing.Some? ==>
                 written == Some([order] + existing.value) && cart.items == [] &&
                 navigate == Some(SuccessPath(order.id)))
      ensures cart.isOpen == old(cart.isOpen)
    {
      isProcessing := true;
      var orderId := OrderId(now);
      var order := NewOrder(orderId, cart.items, formData, createdAt);
      var existing := ExistingOrders(savedOrders, parseOrders);
      if existing.None? {
        return None, None;
      }
      written := Some([order] + existing.value);
      cart.ClearCart();
      navigate := Some(SuccessPath(orderId));
    }
  }
}
