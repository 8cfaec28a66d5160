/** The order details page: it reads the saved orders once, shows the first
    one with the requested id, and recomputes the money figures from its lines. */
module OrderDetails {
  import opened Wrappers
  import opened Types
  import opened Arrays
  import opened Strings
  import opened CartSlice
  import opened Pricing
  import opened CheckoutForm

  /** The predicate `(o) => o.id === orderId`. */
  function HasId(orderId: string): Order -> bool {
    (o: Order) => o.id == orderId
  }

  /** `orders.find((o) => o.id === orderId)`. */
  function FindOrder(orders: seq<Order>, orderId: string): (r: Option<Order>)
    ensures r.None? <==> forall j :: 0 <= j < |orders| ==> orders[j].id != orderId
    ensures r.Some? ==>
              exists i :: 0 <= i < |orders| && orders[i] == r.value && orders[i].id == orderId &&
                          forall j :: 0 <= j < i ==> orders[j].id != orderId
  {
    var i := FindIndex(orders, HasId(orderId));
    if i < |orders| then Some(orders[i]) else None
  }

  /** The order after the load effect: a saved list that parses decides it
      (found or not); a missing, empty or unreadable entry leaves it as it was. */
  function LoadedOrder(saved: Option<string>, parseOrders: string -> Option<seq<Order>>,
                       orderId: string, previous: Option<Order>): (r: Option<Order>)
    ensures (saved.None? || saved == Some("")) ==> r == previous
    ensures saved.Some? && saved.value != "" && parseOrders(saved.value).None? ==> r == previous
    ensures saved.Some? && saved.value != "" && parseOrders(saved.value).Some? ==>
              r == FindOrder(parseOrders(saved.value).value, orderId)
  {
    if saved.Some? && saved.value != "" then
      match parseOrders(saved.value)
      case Some(orders) => FindOrder(orders, orderId)
      case None => previous
    else previous
  }

  class OrderDetailsView {
    var order: Option<Order>
    var isLoading: bool

    constructor ()
      ensures order == None && isLoading
    {
      order := None;
      isLoading := true;
    }

    /** The mount effect; it always ends loading. */
    method Load(saved: Option<string>, parseOrders: string -> Option<seq<Order>>, orderId: string)
      modifies this
      ensures order == LoadedOrder(saved, parseOrders, orderId, old(order)) && !isLoading
    {
      if saved.Some? && saved.value != "" {
        var parsed := parseOrders(saved.value);
        if parsed.Some? {
          order := FindOrder(parsed.value, orderId);
        }
      }
      isLoading := false;
    }
  }

  function StatusName(s: OrderStatus): string {
    match s
    case Pending => "pending"
    case Processing => "processing"
    case Shipped => "shipped"
    case Delivered => "delivered"
  }

  /** The badge text: the status with its first letter capitalised. */
  function StatusLabel(s: OrderStatus): (text: string)
    ensures |text| == |StatusName(s)| && text[1..] == StatusName(s)[1..]
    ensures 'A' <= text[0] <= 'Z'
  {
    Capitalize(StatusName(s))
  }

  lemma StatusLabels()
    ensures StatusLabel(Pending) == "Pending" && StatusLabel(Processing) == "Processing"
    ensures StatusLabel(Shipped) == "Shipped" && StatusLabel(Delivered) == "Delivered"
  {
  }

  /** What the page shows. */
  datatype DetailsScreen =
    | Loading
    | NotFound
    | Details(order: Order, statusLabel: string, subtotal: real, shipping: real, tax: real, total: real)

  /** The subtotal, shipping and tax are recomputed from the lines with the
      checkout rules; the total shown is the stored one. */
  function Screen(isLoading: bool, order: Option<Order>): (sc: DetailsScreen)
    ensures sc.Loading? <==> isLoading
    ensures sc.NotFound? <==> !isLoading && order.None?
    ensures sc.Details? ==>
              sc.order == order.value && sc.statusLabel == StatusLabel(order.value.status) &&
              sc.subtotal == CartTotal(order.value.items) && sc.shipping == Shipping(sc.subtotal) &&
              sc.tax == Tax(sc.subtotal) && sc.total == order.value.total
  {
    if isLoading then Loading
    else if order.None? then NotFound
    else
      var o := order.value;
      var subtotal := CartTotal(o.items);
      Details(o, StatusLabel(o.status), subtotal, Shipping(subtotal), Tax(subtotal), o.total)
  }

  /** The order just placed heads the list written at checkout, so it is the one found. */
  lemma PlacedOrderFound(order: Order, existing: seq<Order>)
    ensures FindOrder([order] + existing, order.id) == Some(order)
  {
    assert ([order] + existing)[0].id == order.id;
  }

  /** Every other id is looked up in the earlier orders as before. */
  lemma PrependKeepsOtherLookups(order: Order, existing: seq<Order>, orderId: string)
    requires orderId != order.id
    ensures FindOrder([order] + existing, orderId) == FindOrder(existing, orderId)
  {
    var all := [order] + existing;
    assert all[1..] == existing;
    assert FindIndex(all, HasId(orderId)) == 1 + FindIndex(existing, HasId(orderId));
  }

  /** After checkout, opening the new order's page shows that order, whenever
      the storage codec reads back what it wrote. */
  lemma ReloadShowsPlacedOrder(order: Order, existing: seq<Order>, encode: seq<Order> -> string,
                               parseOrders: string -> Option<seq<Order>>, previous: Option<Order>)
    requires encode([order] + existing) != ""
    requires parseOrders(encode([order] + existing)) == Some([order] + existing)
    ensures LoadedOrder(Some(encode([order] + existing)), parseOrders, order.id, previous) == Some(order)
  {
    PlacedOrderFound(order, existing);
  }

  /** For an order placed at checkout, the recomputed subtotal, shipping and
      tax add up to the stored total. */
  lemma PlacedOrderFiguresAgree(id: string, items: seq<CartItem>, form: FormData, createdAt: string)
    requires HasAllFields(form)
    ensures var sc := Screen(false, Some(NewOrder(id, items, form, createdAt)));
            sc.subtotal + sc.shipping + sc.tax == sc.total
  {
  }
}
