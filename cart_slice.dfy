/** The cart store: an ordered list of lines and the drawer's visibility,
    changed by the reducers of the cart slice. */
module CartSlice {
  import opened Types
  import opened Arrays

  // ----- Specification of the item list -----

  /** Some line holds product `id`. */
  predicate InCart(items: seq<CartItem>, id: int) {
    exists j :: 0 <= j < |items| && items[j].product.id == id
  }

  /** Position of the line `items.find` returns for `id`, or |items| when there is none. */
  function LineIndex(items: seq<CartItem>, id: int): (i: nat)
    ensures i <= |items|
    ensures i < |items| ==> items[i].product.id == id
    ensures forall j :: 0 <= j < i ==> items[j].product.id != id
    ensures i < |items| <==> InCart(items, id)
  {
    FindIndex(items, (it: CartItem) => it.product.id == id)
  }

  predicate DistinctIds(items: seq<CartItem>) {
    forall j, k :: 0 <= j < k < |items| ==> items[j].product.id != items[k].product.id
  }

  /** The cart invariant: at most one line per product id, every quantity at least 1. */
  predicate WellFormed(items: seq<CartItem>) {
    DistinctIds(items) && forall j :: 0 <= j < |items| ==> items[j].quantity >= 1
  }

  /** The lines after `addToCart(product)`. */
  function Added(items: seq<CartItem>, product: Product): (r: seq<CartItem>)
    ensures InCart(items, product.id) ==>
              var i := LineIndex(items, product.id);
              |r| == |items| && r[i] == CartItem(items[i].product, items[i].quantity + 1) &&
              forall j :: 0 <= j < |items| && j != i ==> r[j] == items[j]
    ensures !InCart(items, product.id) ==> r == items + [CartItem(product, 1)]
  {
    var i := LineIndex(items, product.id);
    if i < |items| then items[i := items[i].(quantity := items[i].quantity + 1)]
    else items + [CartItem(product, 1)]
  }

  /** The lines after `removeFromCart(id)`. */
  function Removed(items: seq<CartItem>, id: int): (r: seq<CartItem>)
    ensures !InCart(r, id)
    ensures forall j :: 0 <= j < |r| ==> r[j] in items
    ensures forall j :: 0 <= j < |items| && items[j].product.id != id ==> items[j] in r
  {
    Filter(items, (it: CartItem) => it.product.id != id)
  }

  /** The lines after `updateQuantity({ productId: id, quantity })`. */
  function Updated(items: seq<CartItem>, id: int, quantity: int): (r: seq<CartItem>)
    ensures !InCart(items, id) ==> r == items
    ensures InCart(items, id) && quantity <= 0 ==> r == Removed(items, id)
    ensures InCart(items, id) && quantity > 0 ==>
              var i := LineIndex(items, id);
              |r| == |items| && r[i] == CartItem(items[i].product, quantity) &&
              forall j :: 0 <= j < |items| && j != i ==> r[j] == items[j]
  {
    var i := LineIndex(items, id);
    if i < |items| then
      if quantity <= 0 then Removed(items, id) else items[i := items[i].(quantity := quantity)]
    else items
  }

  /** The lines after `n` consecutive `addToCart(product)`. */
  function AddedTimes(items: seq<CartItem>, product: Product, n: nat): (r: seq<CartItem>)
    ensures |items| <= |r|
  {
    if n == 0 then items else Added(AddedTimes(items, product, n - 1), product)
  }

  // ----- Selectors -----

  function LineTotal(item: CartItem): real {
    item.product.price * item.quantity as real
  }

  /** `selectCartTotal`: the left fold of price times quantity. */
  function CartTotal(items: seq<CartItem>): (total: real)
    ensures (forall j :: 0 <= j < |items| ==> items[j].product.price >= 0.0 && items[j].quantity >= 0) ==>
              total >= 0.0
  {
    if items == [] then 0.0 else CartTotal(items[..|items| - 1]) + LineTotal(items[|items| - 1])
  }

  /** `selectCartItemsCount`: the left fold of the quantities. */
  function CartItemsCount(items: seq<CartItem>): (count: int)
    ensures (forall j :: 0 <= j < |items| ==> items[j].quantity >= 1) ==> count >= |items|
  {
    if items == [] then 0 else CartItemsCount(items[..|items| - 1]) + items[|items| - 1].quantity
  }

  // ----- The store -----

  /** The actions of the cart slice, as the components dispatch them. */
  datatype CartAction =
    | AddToCart(product: Product)
    | RemoveFromCart(productId: int)
    | UpdateQuantity(productId: int, quantity: int)
    | ClearCart
    | ToggleCart
    | SetCartOpen(open: bool)
    | HydrateCart(payload: seq<CartItem>)

  class CartStore {
    var items: seq<CartItem>
    var isOpen: bool

    /** One line per product id, every quantity at least 1. */
    predicate Valid()
      reads this
    {
      WellFormed(items)
    }

    /** `initialState`. */
    constructor ()
      ensures items == [] && !isOpen && Valid()
    {
      items := [];
      isOpen := false;
    }

    method AddToCart(product: Product)
      modifies this
      ensures items == Added(old(items), product) && isOpen == old(isOpen)
      ensures old(Valid()) ==> Valid()
    {
      if Valid() {
        AddedWellFormed(items, product);
      }
      var i := LineIndex(items, product.id);
      if i < |items| {
        var line := items[i];
        items := items[i := line.(quantity := line.quantity + 1)];
      } else {
        items := items + [CartItem(product, 1)];
      }
    }

    method RemoveFromCart(productId: int)
      modifies this
      ensures items == Removed(old(items), productId) && isOpen == old(isOpen)
      ensures old(Valid()) ==> Valid()
    {
      if Valid() {
        RemovedWellFormed(items, productId);
      }
      items := Removed(items, productId);
    }

    method UpdateQuantity(productId: int, quantity: int)
      modifies this
      ensures items == Updated(old(items), productId, quantity) && isOpen == old(isOpen)
      ensures old(Valid()) ==> Valid()
    {
      if Valid() {
        UpdatedWellFormed(items, productId, quantity);
      }
      var i := LineIndex(items, productId);
      if i < |items| {
        if quantity <= 0 {
          items := Removed(items, productId);
        } else {
          var line := items[i];
          items := items[i := line.(quantity := quantity)];
        }
      }
    }

    method ClearCart()
      modifies this
      ensures items == [] && isOpen == old(isOpen) && Valid()
    {
      items := [];
    }

    method ToggleCart()
      modifies this
      ensures isOpen == !old(isOpen) && items == old(items)
    {
      isOpen := !isOpen;
    }

    method SetCartOpen(open: bool)
      modifies this
      ensures isOpen == open && items == old(items)
    {
      isOpen := open;
    }

    /** Replaces the lines wholesale; the payload is not checked. */
    method HydrateCart(payload: seq<CartItem>)
      modifies this
      ensures items == payload && isOpen == old(isOpen)
    {
      items := payload;
    }

    /** The slice's reducer: each action runs its case reducer. Only a
        hydration can break the cart invariant, since its payload is unchecked. */
    method Dispatch(action: CartAction)
      modifies this
      ensures !action.HydrateCart? && old(Valid()) ==> Valid()
      ensures match action
        case AddToCart(p) => items == Added(old(items), p) && isOpen == old(isOpen)
        case RemoveFromCart(id) => items == Removed(old(items), id) && isOpen == old(isOpen)
        case UpdateQuantity(id, q) => items == Updated(old(items), id, q) && isOpen == old(isOpen)
        case ClearCart => items == [] && isOpen == old(isOpen)
        case ToggleCart => items == old(items) && isOpen == !old(isOpen)
        case SetCartOpen(b) => items == old(items) && isOpen == b
        case HydrateCart(payload) => items == payload && isOpen == old(isOpen)
    {
      match action
      case AddToCart(p) => AddToCart(p);
      case RemoveFromCart(id) => RemoveFromCart(id);
      case UpdateQuantity(id, q) => UpdateQuantity(id, q);
      case ClearCart => ClearCart();
      case ToggleCart => ToggleCart();
      case SetCartOpen(b) => SetCartOpen(b);
      case HydrateCart(payload) => HydrateCart(payload);
    }
  }

  /** Toggling the drawer twice restores the whole state. */
  method ToggleTwice(store: CartStore)
    modifies store
    ensures store.items == old(store.items) && store.isOpen == old(store.isOpen)
  {
    store.ToggleCart();
    store.ToggleCart();
  }

  // ----- Properties of the reducers -----

  /** In a well-formed cart a line is the one `find` returns for its own id. */
  lemma LineIndexOfLine(items: seq<CartItem>, i: nat)
    requires DistinctIds(items) && i < |items|
    ensures LineIndex(items, items[i].product.id) == i
  {
  }

  /** Changing a line but not its product leaves every lookup where it was. */
  lemma LineIndexSameProducts(items: seq<CartItem>, i: nat, line: CartItem, id: int)
    requires i < |items| && line.product.id == items[i].product.id
    ensures LineIndex(items[i := line], id) == LineIndex(items, id)
  {
    assert forall j :: 0 <= j < |items| ==> items[i := line][j].product.id == items[j].product.id;
  }

  /** A line appended for a new product is the one found for it. */
  lemma LineIndexAppended(items: seq<CartItem>, line: CartItem, id: int)
    ensures LineIndex(items + [line], id) ==
              if InCart(items, id) then LineIndex(items, id)
              else if line.product.id == id then |items| else |items| + 1
  {
    var r := items + [line];
    assert forall j :: 0 <= j < |items| ==> r[j] == items[j];
    if line.product.id == id && !InCart(items, id) {
      assert r[|items|].product.id == id;
    } else if !InCart(items, id) {
      assert !InCart(r, id);
    }
  }

  /** A line in front of lines with other, distinct ids keeps the ids distinct. */
  lemma DistinctCons(x: CartItem, rest: seq<CartItem>)
    requires DistinctIds(rest)
    requires forall j :: 0 <= j < |rest| ==> rest[j].product.id != x.product.id
    ensures DistinctIds([x] + rest)
  {
    var r := [x] + rest;
    forall j, k | 0 <= j < k < |r| ensures r[j].product.id != r[k].product.id {
      assert r[k] == rest[k - 1];
      if j > 0 {
        assert r[j] == rest[j - 1];
      }
    }
  }

  /** Filtering keeps at most one line per product id. */
  lemma {:induction false} FilterKeepsDistinct(items: seq<CartItem>, f: CartItem -> bool)
    requires DistinctIds(items)
    ensures DistinctIds(Filter(items, f))
  {
    if items != [] {
      var rest := items[1..];
      assert forall j :: 0 <= j < |rest| ==> rest[j] == items[j + 1];
      var tail := Filter(rest, f);
      FilterKeepsDistinct(rest, f);
      if f(items[0]) {
        forall j | 0 <= j < |tail| ensures tail[j].product.id != items[0].product.id {
          assert tail[j] in rest;
        }
        DistinctCons(items[0], tail);
        assert Filter(items, f) == [items[0]] + tail;
      } else {
        assert Filter(items, f) == tail;
      }
    }
  }

  /** `addToCart` keeps the cart invariant. */
  lemma AddedWellFormed(items: seq<CartItem>, product: Product)
    requires WellFormed(items)
    ensures WellFormed(Added(items, product))
  {
    var r := Added(items, product);
    if !InCart(items, product.id) {
      assert forall j :: 0 <= j < |items| ==> r[j] == items[j];
      assert r[|items|].product.id == product.id;
    }
  }

  /** `removeFromCart` keeps the cart invariant. */
  lemma RemovedWellFormed(items: seq<CartItem>, id: int)
    requires WellFormed(items)
    ensures WellFormed(Removed(items, id))
  {
    FilterKeepsDistinct(items, (it: CartItem) => it.product.id != id);
    var r := Removed(items, id);
    forall j | 0 <= j < |r| ensures r[j].quantity >= 1 {
      var k :| 0 <= k < |items| && items[k] == r[j];
    }
  }

  /** `updateQuantity` with any integer keeps the cart invariant. */
  lemma UpdatedWellFormed(items: seq<CartItem>, id: int, quantity: int)
    requires WellFormed(items)
    ensures WellFormed(Updated(items, id, quantity))
  {
    if InCart(items, id) && quantity <= 0 {
      RemovedWellFormed(items, id);
    }
  }

  /** Removing a product absent from the cart changes nothing. */
  lemma RemovedAbsent(items: seq<CartItem>, id: int)
    requires !InCart(items, id)
    ensures Removed(items, id) == items
  {
    FilterAll(items, (it: CartItem) => it.product.id != id);
  }

  /** Removal keeps the remaining lines in their relative order. */
  lemma RemovedConcat(a: seq<CartItem>, b: seq<CartItem>, id: int)
    ensures Removed(a + b, id) == Removed(a, id) + Removed(b, id)
  {
    FilterConcat(a, b, (it: CartItem) => it.product.id != id);
  }

  /** `updateQuantity(id, q)` with q <= 0 is `removeFromCart(id)`, whether or not the line exists. */
  lemma UpdateNonPositiveIsRemove(items: seq<CartItem>, id: int, quantity: int)
    requires quantity <= 0
    ensures Updated(items, id, quantity) == Removed(items, id)
  {
    if !InCart(items, id) {
      RemovedAbsent(items, id);
    }
  }

  /** Adding a product whose line holds `q` units leaves it holding q + 1. */
  lemma AddedGrowsLine(items: seq<CartItem>, product: Product, i: nat, q: int)
    requires i < |items| && i == LineIndex(items, product.id)
    ensures Added(items[i := CartItem(items[i].product, q)], product) ==
              items[i := CartItem(items[i].product, q + 1)]
  {
    var line := CartItem(items[i].product, q);
    LineIndexSameProducts(items, i, line, product.id);
    assert items[i := line][i := CartItem(items[i].product, q + 1)] == items[i := CartItem(items[i].product, q + 1)];
  }

  /** Adding a product again right after its line was appended grows that line. */
  lemma AddedAppendedLine(items: seq<CartItem>, product: Product, q: int)
    requires !InCart(items, product.id)
    ensures Added(items + [CartItem(product, q)], product) == items + [CartItem(product, q + 1)]
  {
    LineIndexAppended(items, CartItem(product, q), product.id);
    assert (items + [CartItem(product, q)])[|items| := CartItem(product, q + 1)] == items + [CartItem(product, q + 1)];
  }

  /** Adding a product already in the cart `n` times grows its line by n. */
  lemma {:induction false} AddedTimesGrows(items: seq<CartItem>, product: Product, i: nat, n: nat)
    requires i < |items| && i == LineIndex(items, product.id)
    ensures AddedTimes(items, product, n) == items[i := CartItem(items[i].product, items[i].quantity + n)]
  {
    if n == 0 {
      assert items[i := CartItem(items[i].product, items[i].quantity)] == items;
    } else {
      AddedTimesGrows(items, product, i, n - 1);
      AddedGrowsLine(items, product, i, items[i].quantity + n - 1);
    }
  }

  /** Adding a new product `n` >= 1 times appends one line of quantity n. */
  lemma {:induction false} AddedTimesAppends(items: seq<CartItem>, product: Product, n: nat)
    requires !InCart(items, product.id) && n >= 1
    ensures AddedTimes(items, product, n) == items + [CartItem(product, n)]
  {
    if n > 1 {
      AddedTimesAppends(items, product, n - 1);
      AddedAppendedLine(items, product, n - 1);
    }
  }

  /** Adding a product `n` times: an existing line grows by n, a new product
      gets one line of quantity n at the end. */
  lemma AddedTimesEffect(items: seq<CartItem>, product: Product, n: nat)
    ensures InCart(items, product.id) ==>
              var i := LineIndex(items, product.id);
              AddedTimes(items, product, n) == items[i := CartItem(items[i].product, items[i].quantity + n)]
    ensures !InCart(items, product.id) && n >= 1 ==>
              AddedTimes(items, product, n) == items + [CartItem(product, n)]
  {
    if InCart(items, product.id) {
      AddedTimesGrows(items, product, LineIndex(items, product.id), n);
    } else if n >= 1 {
      AddedTimesAppends(items, product, n);
    }
  }

  /** Any number of `addToCart` keeps the cart invariant. */
  lemma {:induction false} AddedTimesWellFormed(items: seq<CartItem>, product: Product, n: nat)
    requires WellFormed(items)
    ensures WellFormed(AddedTimes(items, product, n))
  {
    if n > 0 {
      AddedTimesWellFormed(items, product, n - 1);
      AddedWellFormed(AddedTimes(items, product, n - 1), product);
    }
  }

  /** From an empty cart, n adds of one product give one line of quantity n. */
  lemma AddedTimesFromEmpty(product: Product, n: nat)
    requires n >= 1
    ensures AddedTimes([], product, n) == [CartItem(product, n)]
  {
    AddedTimesEffect([], product, n);
  }

  /** The price a further `addToCart(product)` adds to the total: that of the
      stored snapshot when the product is already in the cart. */
  function UnitPrice(items: seq<CartItem>, product: Product): real {
    var i := LineIndex(items, product.id);
    if i < |items| then items[i].product.price else product.price
  }

  lemma CartTotalAppend(items: seq<CartItem>, line: CartItem)
    ensures CartTotal(items + [line]) == CartTotal(items) + LineTotal(line)
  {
    assert (items + [line])[..|items|] == items;
  }

  lemma {:induction false} CartTotalUpdate(items: seq<CartItem>, i: nat, line: CartItem)
    requires i < |items|
    ensures CartTotal(items[i := line]) == CartTotal(items) - LineTotal(items[i]) + LineTotal(line)
  {
    var n := |items|;
    var r := items[i := line];
    if i < n - 1 {
      assert r[..n - 1] == items[..n - 1][i := line];
      CartTotalUpdate(items[..n - 1], i, line);
    } else {
      assert r[..n - 1] == items[..n - 1];
    }
  }

  lemma {:induction false} CartItemsCountUpdate(items: seq<CartItem>, i: nat, line: CartItem)
    requires i < |items|
    ensures CartItemsCount(items[i := line]) == CartItemsCount(items) - items[i].quantity + line.quantity
  {
    var n := |items|;
    var r := items[i := line];
    if i < n - 1 {
      assert r[..n - 1] == items[..n - 1][i := line];
      CartItemsCountUpdate(items[..n - 1], i, line);
    } else {
      assert r[..n - 1] == items[..n - 1];
    }
  }

  /** One more unit on a line adds its price to the line total. */
  lemma LineTotalIncrement(line: CartItem)
    ensures LineTotal(line.(quantity := line.quantity + 1)) == LineTotal(line) + line.product.price
  {
    assert (line.quantity + 1) as real == line.quantity as real + 1.0;
  }

  /** Each `addToCart` raises the total by the unit price of the product's line. */
  lemma CartTotalAdded(items: seq<CartItem>, product: Product)
    ensures CartTotal(Added(items, product)) == CartTotal(items) + UnitPrice(items, product)
  {
    var i := LineIndex(items, product.id);
    if i < |items| {
      var line := items[i];
      var grown := line.(quantity := line.quantity + 1);
      assert Added(items, product) == items[i := grown];
      CartTotalUpdate(items, i, grown);
      LineTotalIncrement(line);
    } else {
      CartTotalAppend(items, CartItem(product, 1));
    }
  }

  /** Each `addToCart` raises the item count by exactly one. */
  lemma CartItemsCountAdded(items: seq<CartItem>, product: Product)
    ensures CartItemsCount(Added(items, product)) == CartItemsCount(items) + 1
  {
    var i := LineIndex(items, product.id);
    if i < |items| {
      CartItemsCountUpdate(items, i, items[i].(quantity := items[i].quantity + 1));
    } else {
      assert (items + [CartItem(product, 1)])[..|items|] == items;
    }
  }

  /** Adding one product does not change the unit price recorded for another. */
  lemma UnitPriceAddedOther(items: seq<CartItem>, p: Product, q: Product)
    requires p.id != q.id
    ensures UnitPrice(Added(items, q), p) == UnitPrice(items, p)
  {
    var i := LineIndex(items, q.id);
    if i < |items| {
      LineIndexSameProducts(items, i, items[i].(quantity := items[i].quantity + 1), p.id);
    } else {
      LineIndexAppended(items, CartItem(q, 1), p.id);
    }
  }

  /** The total does not depend on the order in which two distinct products are added. */
  lemma CartTotalAddCommutes(items: seq<CartItem>, p: Product, q: Product)
    requires p.id != q.id
    ensures CartTotal(Added(Added(items, p), q)) == CartTotal(Added(Added(items, q), p))
  {
    CartTotalAdded(items, p);
    CartTotalAdded(Added(items, p), q);
    CartTotalAdded(items, q);
    CartTotalAdded(Added(items, q), p);
    UnitPriceAddedOther(items, p, q);
    UnitPriceAddedOther(items, q, p);
  }
}
