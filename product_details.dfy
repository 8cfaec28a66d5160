/** The product page: a quantity stepper, the add-to-cart loop, and the
    rating display. */
module ProductDetails {
  import opened Types
  import opened CartSlice

  class ProductDetailsView {
    var quantity: int
    var isAdded: bool

    /** The selected quantity never drops below 1. */
    predicate Valid()
      reads this
    {
      quantity >= 1
    }

    constructor ()
      ensures quantity == 1 && !isAdded && Valid()
    {
      quantity := 1;
      isAdded := false;
    }

    method IncrementQuantity()
      modifies this
      ensures quantity == old(quantity) + 1 && isAdded == old(isAdded)
      ensures old(Valid()) ==> Valid()
    {
      quantity := quantity + 1;
    }

    /** `Math.max(1, q - 1)`. */
    method DecrementQuantity()
      modifies this
      ensures old(quantity) > 1 ==> quantity == old(quantity) - 1
      ensures old(quantity) <= 1 ==> quantity == 1
      ensures isAdded == old(isAdded) && Valid()
    {
      quantity := if quantity - 1 > 1 then quantity - 1 else 1;
    }

    /** Dispatches `addToCart(product)` once per selected unit, then flags the
        confirmation. The drawer opens later, in `AddedTimeout`. */
    method HandleAddToCart(store: CartStore, product: Product)
      requires Valid()
      modifies this, store
      ensures isAdded && quantity == old(quantity) && Valid()
      ensures store.items == AddedTimes(old(store.items), product, quantity)
      ensures store.isOpen == old(store.isOpen)
      ensures old(store.Valid()) ==> store.Valid()
    {
      var i := 0;
      while i < quantity
        invariant 0 <= i <= quantity
        invariant store.items == AddedTimes(old(store.items), product, i)
        invariant store.isOpen == old(store.isOpen)
        modifies store
      {
        store.AddToCart(product);
        i := i + 1;
      }
      if old(store.Valid()) {
        AddedTimesWellFormed(old(store.items), product, quantity);
      }
      isAdded := true;
    }

    /** The 500 ms timer: clear the confirmation and open the drawer. */
    method AddedTimeout(store: CartStore)
      modifies this, store
      ensures !isAdded && quantity == old(quantity)
      ensures store.isOpen && store.items == old(store.items)
    {
      isAdded := false;
      store.SetCartOpen(true);
    }
  }

  /** The five stars: star i is filled when i < floor(rate). */
  function Stars(rate: real): (s: seq<bool>)
    ensures |s| == 5
    ensures forall i :: 0 <= i < 5 ==> (s[i] <==> i < rate.Floor)
  {
    seq(5, i => i < rate.Floor)
  }

  /** floor(rate), clamped to the five stars there are. */
  function FilledCount(rate: real): (n: nat)
    ensures n <= 5
  {
    if rate.Floor < 0 then 0 else if rate.Floor > 5 then 5 else rate.Floor
  }

  /** The stars are `FilledCount(rate)` filled ones followed by empty ones. */
  lemma StarsShape(rate: real)
    ensures Stars(rate) == seq(FilledCount(rate), _ => true) + seq(5 - FilledCount(rate), _ => false)
  {
    var n := FilledCount(rate);
    var t := seq(n, _ => true) + seq(5 - n, _ => false);
    assert forall i :: 0 <= i < 5 ==> Stars(rate)[i] == t[i];
  }

  predicate ShowsBestSeller(p: Product) {
    p.rating.rate >= 4.5
  }

  /** A best seller always shows at least four filled stars. */
  lemma BestSellerHasFourStars(p: Product)
    requires ShowsBestSeller(p)
    ensures FilledCount(p.rating.rate) >= 4
    ensures forall i :: 0 <= i < 4 ==> Stars(p.rating.rate)[i]
  {
  }
}
