/** The site header: the search box, the cart button with its badge, and sign-out. */
module Header {
  import opened Wrappers
  import opened Types
  import opened Strings
  import opened QueryParams
  import opened CartSlice
  import opened AuthSlice
  import opened CartDrawer

  /** Where a search submission goes: nowhere for a blank query, otherwise
      /search with the query as typed, untrimmed. */
  function SearchTarget(query: string): (target: Option<Url>)
    ensures target.Some? <==> !AllWhitespace(query)
    ensures target.Some? ==> target.value == Url("/search", [("q", query)])
  {
    TrimEmpty(query);
    if Trim(query) != "" then Some(Url("/search", [("q", query)])) else None
  }

  lemma SearchExamples()
    ensures SearchTarget("  ").None?
    ensures SearchTarget(" bag ") == Some(Url("/search", [("q", " bag ")]))
  {
    assert IsWhitespace(" bag "[0]) && !IsWhitespace(" bag "[1]);
  }

  /** The badge is shown for a positive unit count. */
  predicate ShowsBadge(count: int) {
    count > 0
  }

  /** In a well-formed cart the badge shows exactly when there is a line, and
      counts units, at least as many as the drawer's line count. */
  lemma BadgeAgreesWithCart(items: seq<CartItem>)
    requires WellFormed(items)
    ensures ShowsBadge(CartItemsCount(items)) <==> items != []
    ensures CartItemsCount(items) >= Drawer(items).headerCount
  {
  }

  /** The two counts differ as soon as a line holds more than one unit. */
  lemma BadgeCountsUnits(p: Product)
    ensures CartItemsCount([CartItem(p, 2)]) == 2 && Drawer([CartItem(p, 2)]).headerCount == 1
  {
    assert [CartItem(p, 2)][..0] == [];
  }

  /** The cart button opens the drawer. */
  method OpenCart(store: CartStore)
    modifies store
    ensures store.isOpen && store.items == old(store.items)
  {
    store.SetCartOpen(true);
  }

  /** Sign-out: the store returns to its initial state, then the home page. */
  method HandleLogout(auth: AuthStore) returns (navigate: string)
    modifies auth
    ensures auth.IsInitial() && auth.Valid() && navigate == "/"
  {
    auth.Logout();
    navigate := "/";
  }
}
