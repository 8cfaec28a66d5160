/** The slide-over cart drawer: its figures, and the actions its controls dispatch. */
module CartDrawer {
  import opened Wrappers
  import opened Types
  import opened CartSlice
  import opened Pricing
  import opened CartContent

  datatype ShippingLabel = Free | Flat(amount: real)

  datatype DrawerView = DrawerView(
    headerCount: nat,
    empty: bool,
    subtotal: real,
    shippingLabel: ShippingLabel,
    grandTotal: real)

  function Drawer(items: seq<CartItem>): (v: DrawerView)
    ensures v.headerCount == |items| && (v.empty <==> items == [])
    ensures v.subtotal == CartTotal(items)
    ensures v.shippingLabel == Free <==> v.subtotal >= FreeShippingThreshold
    ensures v.shippingLabel.Flat? ==> v.shippingLabel.amount == ShippingFee
  {
    var total := CartTotal(items);
    DrawerView(|items|, |items| == 0, total,
               if total >= 50.0 then Free else Flat(5.0),
               total + (if total >= 50.0 then 0.0 else 5.0))
  }

  /** The drawer's grand total is the cart page's total for the same cart. */
  lemma DrawerAgreesWithCartPage(items: seq<CartItem>)
    requires items != []
    ensures Drawer(items).grandTotal == CartPage(items).total
    ensures Drawer(items).headerCount == CartPage(items).lineCount
  {
  }

  /** The shipping label names the fee that the grand total adds. */
  lemma ShippingLabelMatchesFee(items: seq<CartItem>)
    ensures var v := Drawer(items);
            v.grandTotal == v.subtotal + (if v.shippingLabel == Free then 0.0 else v.shippingLabel.amount)
  {
  }

  /** The drawer's controls. */
  datatype DrawerEvent =
    | OpenChange(open: bool)
    | Remove(item: CartItem)
    | Minus(item: CartItem)
    | Plus(item: CartItem)
    | ContinueFromEmpty
    | ProceedToCheckout
    | ContinueShopping

  predicate Closes(e: DrawerEvent) {
    e.ContinueFromEmpty? || e.ProceedToCheckout? || e.ContinueShopping?
  }

  /** The action a control dispatches; the line buttons send the cart page's payloads. */
  function DrawerAction(e: DrawerEvent): (a: CartAction)
    ensures Closes(e) ==> a == SetCartOpen(false)
    ensures e.OpenChange? ==> a == SetCartOpen(e.open)
    ensures e.Minus? ==> a == MinusPayload(e.item)
    ensures e.Plus? ==> a == PlusPayload(e.item)
    ensures e.Remove? ==> a == RemovePayload(e.item)
  {
    match e
    case OpenChange(open) => SetCartOpen(open)
    case Remove(item) => RemoveFromCart(item.product.id)
    case Minus(item) => UpdateQuantity(item.product.id, item.quantity - 1)
    case Plus(item) => UpdateQuantity(item.product.id, item.quantity + 1)
    case ContinueFromEmpty => SetCartOpen(false)
    case ProceedToCheckout => SetCartOpen(false)
    case ContinueShopping => SetCartOpen(false)
  }

  /** Where a control's link leads, if it is a link. */
  function DrawerLink(e: DrawerEvent): (href: Option<string>)
    ensures href.Some? ==> e.ContinueFromEmpty? || e.ProceedToCheckout?
    ensures e.ContinueFromEmpty? ==> href == Some("/")
    ensures e.ProceedToCheckout? ==> href == Some("/checkout")
  {
    match e
    case ContinueFromEmpty => Some("/")
    case ProceedToCheckout => Some("/checkout")
    case _ => None
  }

  /** Dispatching a control's action to the store. */
  method HandleEvent(store: CartStore, e: DrawerEvent)
    modifies store
    ensures Closes(e) ==> !store.isOpen && store.items == old(store.items)
    ensures e.OpenChange? ==> store.isOpen == e.open && store.items == old(store.items)
    ensures e.Remove? ==>
              store.items == Removed(old(store.items), e.item.product.id) && store.isOpen == old(store.isOpen)
    ensures e.Minus? ==>
              store.items == Updated(old(store.items), e.item.product.id, e.item.quantity - 1) &&
              store.isOpen == old(store.isOpen)
    ensures e.Plus? ==>
              store.items == Updated(old(store.items), e.item.product.id, e.item.quantity + 1) &&
              store.isOpen == old(store.isOpen)
    ensures old(store.Valid()) ==> store.Valid()
  {
    store.Dispatch(DrawerAction(e));
  }
}
