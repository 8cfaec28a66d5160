/** The order history page: the saved orders, one card each, in stored order. */
module OrdersList {
  import opened Wrappers
  import opened Types
  import opened Arrays
  import opened CartSlice
  import opened OrderDetails

  /** The list after the load effect: a saved value that parses replaces it;
      a missing, empty or unreadable entry leaves it as it was. */
  function LoadedOrders(saved: Option<string>, parseOrders: string -> Option<seq<Order>>,
                        previous: seq<Order>): (r: seq<Order>)
    ensures saved.Some? && saved.value != "" && parseOrders(saved.value).Some? ==>
              r == parseOrders(saved.value).value
    ensures !(saved.Some? && saved.value != "" && parseOrders(saved.value).Some?) ==> r == previous
  {
    if saved.Some? && saved.value != "" then
      match parseOrders(saved.value)
      case Some(orders) => orders
      case None => previous
    else previous
  }

  class OrdersListView {
    var orders: seq<Order>
    var isLoading: bool

    constructor ()
      ensures orders == [] && isLoading
    {
      orders := [];
      isLoading := true;
    }

    /** The mount effect; it always ends loading. */
    method Load(saved: Option<string>, parseOrders: string -> Option<seq<Order>>)
      modifies this
      ensures orders == LoadedOrders(saved, parseOrders, old(orders)) && !isLoading
    {
      if saved.Some? && saved.value != "" {
        var parsed := parseOrders(saved.value);
        if parsed.Some? {
          orders := parsed.value;
        }
      }
      isLoading := false;
    }
  }

  /** On first load the list starts empty, so unreadable data shows no orders. */
  lemma FirstLoadOfBadDataIsEmpty(saved: Option<string>, parseOrders: string -> Option<seq<Order>>)
    requires saved.None? || saved == Some("") || parseOrders(saved.value).None?
    ensures LoadedOrders(saved, parseOrders, []) == []
  {
  }

  /** A thumbnail: the product, and the quantity badge when there is one. */
  datatype Thumbnail = Thumbnail(productId: int, badge: Option<int>)

  /** The badge shows only for more than one unit. */
  function QuantityBadge(item: CartItem): (b: Option<int>)
    ensures b.Some? <==> item.quantity > 1
    ensures b.Some? ==> b.value == item.quantity
  {
    if item.quantity > 1 then Some(item.quantity) else None
  }

  function ThumbnailsOf(items: seq<CartItem>): (t: seq<Thumbnail>)
    ensures |t| == |items|
    ensures forall j :: 0 <= j < |items| ==>
              t[j] == Thumbnail(items[j].product.id, QuantityBadge(items[j]))
  {
    if items == [] then [] else [Thumbnail(items[0].product.id, QuantityBadge(items[0]))] + ThumbnailsOf(items[1..])
  }

  /** At most four thumbnails: those of the first four lines. */
  function Thumbnails(items: seq<CartItem>): (t: seq<Thumbnail>)
    ensures |t| <= 4 && (|t| == 4 || |t| == |items|) && |t| <= |items|
    ensures forall j :: 0 <= j < |t| ==> t[j].productId == items[j].product.id
    ensures t == ThumbnailsOf(items[..|t|])
  {
    var first := Take(items, 4);
    assert first == items[..|first|];
    ThumbnailsOf(first)
  }

  /** The "+n" marker for the lines without a thumbnail. */
  function Overflow(items: seq<CartItem>): (n: Option<nat>)
    ensures n.Some? <==> |items| > 4
  {
    if |items| > 4 then Some(|items| - 4) else None
  }

  /** Thumbnails and the overflow marker account for every line exactly once. */
  lemma ThumbnailsAndOverflowCoverLines(items: seq<CartItem>)
    ensures |Thumbnails(items)| + (if Overflow(items).Some? then Overflow(items).value else 0) == |items|
  {
  }

  datatype OrderCard = OrderCard(
    id: string,
    statusLabel: string,
    thumbnails: seq<Thumbnail>,
    overflow: Option<nat>,
    itemsCount: int,
    total: real)

  function Card(o: Order): (c: OrderCard)
    ensures c.id == o.id && c.total == o.total && c.statusLabel == StatusLabel(o.status)
    ensures c.thumbnails == Thumbnails(o.items) && c.overflow == Overflow(o.items)
    ensures c.itemsCount == CartItemsCount(o.items)
  {
    OrderCard(o.id, StatusLabel(o.status), Thumbnails(o.items), Overflow(o.items),
              CartItemsCount(o.items), o.total)
  }

  function Cards(orders: seq<Order>): (cs: seq<OrderCard>)
    ensures |cs| == |orders|
    ensures forall j :: 0 <= j < |orders| ==> cs[j] == Card(orders[j])
  {
    if orders == [] then [] else [Card(orders[0])] + Cards(orders[1..])
  }

  datatype ListScreen = Skeleton | NoOrders | List(cards: seq<OrderCard>)

  /** The cards follow the stored order of the list. */
  function Screen(isLoading: bool, orders: seq<Order>): (sc: ListScreen)
    ensures sc.Skeleton? <==> isLoading
    ensures sc.NoOrders? <==> !isLoading && orders == []
    ensures sc.List? ==> sc.cards == Cards(orders)
    ensures sc.List? ==> |sc.cards| == |orders| && forall j :: 0 <= j < |orders| ==> sc.cards[j].id == orders[j].id
  {
    if isLoading then Skeleton
    else if |orders| == 0 then NoOrders
    else List(Cards(orders))
  }

  /** After a checkout has prepended an order, that order's card comes first. */
  lemma NewestOrderFirst(order: Order, existing: seq<Order>)
    ensures var sc := Screen(false, [order] + existing);
            sc.List? && sc.cards[0] == Card(order)
  {
    assert ([order] + existing)[0] == order;
  }
}
