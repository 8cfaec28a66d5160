# Storefront state and rules, in Dafny

This project models the client-side core of a Next.js/Redux storefront.

- **The cart store.** It holds an ordered list of `{product, quantity}` lines and the drawer's visibility. Its reducers change it in place. It keeps one invariant: at most one line per product id, every quantity at least 1.
- **The auth store.** It holds the user, the token, and the loading and error flags. Its reducers keep `isAuthenticated` equal to "a user and a token are held".
- **The route guard.** Paths under `/checkout`, `/orders` and `/profile` need an `auth-token` cookie. A visitor without one is sent to `/login?redirect=<path>`.
- **Start-up rehydration.** This covers the `getCookie` string parser and the rules deciding which `hydrateAuth` and `hydrateCart` payloads are dispatched.
- **The money rules.** Shipping is 5, or free from a subtotal of 50. Tax is 8% of the subtotal. These are shared by the checkout form, the cart page, the cart drawer and the order details page.
- **Checkout and the order views.** Checkout places an order at the head of the stored list. The order pages read that list back: lookup by id, four thumbnails and an overflow count.
- **The small builders and validators of the components.** These are:
  - password requirements and the order of the registration checks;
  - the demo user and the redirect target of the sign-in form;
  - the quantity stepper and the add-to-cart loop of the product page;
  - related products;
  - the sort selector;
  - the catalogue request paths;
  - the header's search guard and cart badge.

Money is an exact `real`, so totals are exact sums and the tax rate is exactly 8/100. The stores and the components that hold state are classes whose methods update their fields. Each reducer method is tied, in its `ensures`, to a pure function of the old state: `Added`, `Removed`, `Updated` and so on. The lemmas then state what the source promises about those functions.

The JavaScript built-ins the core relies on are modelled once, each in its own module:
- `Arrays`: `find`/`findIndex`, `some`, `filter` and `slice`;
- `Strings`: `indexOf`, `split`, `trim` and ASCII `toUpperCase`;
- `Decimal`: number-to-string;
- `QueryParams`: `URLSearchParams`, as an ordered list of name/value pairs.

Calls into code that is not part of this model are parameters of the members that make them:
- `JSON.parse` and `decodeURIComponent` are functions returning `None` where they throw;
- `JSON.stringify` and `encodeURIComponent` are plain functions;
- `btoa` is modelled by its failure: it throws on any character above U+00FF, and its base64 output is a parameter;
- `Date.now()` is a `nat`;
- a network answer is a value.

Three details of checkout follow the code:
- `lib/types.ts` declares `Order.userId` as required, but checkout never sets it, so `Order.userId` is an `Option` and new orders carry `None`.
- New orders always have status "processing" (components/checkout-form.tsx:65).
- A new order is put first in the stored list (components/checkout-form.tsx:77).

## Model

| member | source | states |
|---|---|---|
| Arrays.FindIndex | store/cart-slice.ts:19 | `find`/`findIndex`: the index of the first element satisfying the predicate, with no earlier one satisfying it; the length when none does |
| Arrays.Any | proxy.ts:11 | `some` is true exactly when some element satisfies the predicate |
| Arrays.Filter | store/cart-slice.ts:27 | `filter` keeps exactly the elements that pass: every kept element is in the input and passes, and every passing input element is kept |
| Arrays.Take | components/related-products.tsx:15 | `slice(0, n)` is a prefix of the input of length n, or the whole input when it is shorter |
| Arrays.FilterAll | components/related-products.tsx:15 | filtering a sequence all of whose elements pass returns it unchanged |
| Arrays.FilterConcat | store/cart-slice.ts:27 | filtering distributes over concatenation, so relative order is kept |
| Arrays.FilterIsSubsequence | components/related-products.tsx:15 | the filtered sequence is a subsequence of the input |
| Arrays.SubsequencePrefix | components/related-products.tsx:15 | a prefix of a subsequence is still a subsequence |
| Strings.IndexFrom | components/providers.tsx:20 | a found index lies at or after the start and the pattern occurs there |
| Strings.IndexOf | components/providers.tsx:20 | `indexOf`: a found index is an occurrence of the pattern |
| Strings.IndexFromFirst | components/providers.tsx:20 | the scan from a start index skips no occurrence; None means there is none from that index on |
| Strings.IndexOfFirst | components/providers.tsx:20 | `indexOf` returns the first occurrence, and returns nothing only when the pattern occurs nowhere |
| Strings.IndexOfAbsentFirstChar | components/providers.tsx:20 | a pattern whose first character is absent from the text is not found |
| Strings.IndexOfChar | components/providers.tsx:21 | a one-character pattern is found exactly when that character occurs |
| Strings.Split | components/providers.tsx:20-21 | `split` gives at least one part, and exactly one exactly when the separator does not occur |
| Strings.SplitJoin | components/providers.tsx:20 | joining the parts of a split with the separator gives back the original string |
| Strings.SplitTwo | components/providers.tsx:20-21 | a split gives exactly two parts exactly when the separator occurs once and not again after its first occurrence; the second part is then the text after that occurrence |
| Strings.SplitPartsClean | components/providers.tsx:20 | no part of a split contains the separator |
| Strings.TrimStart | components/header.tsx:41 | the result is a suffix of the text, the removed prefix is all whitespace, the result is empty exactly when the text is all whitespace, and otherwise it starts with a non-whitespace character |
| Strings.TrimEnd | components/header.tsx:41 | the result is a prefix of the text, the removed suffix is all whitespace, the result is empty exactly when the text is all whitespace, and otherwise it ends with a non-whitespace character |
| Strings.Trim | components/header.tsx:41 | `trim()` returns a slice `s[i..j]` of the text whose cut-off prefix `s[..i]` and suffix `s[j..]` are all whitespace, and a non-empty result neither starts nor ends with whitespace |
| Strings.TrimEmpty | components/header.tsx:41 | `trim()` gives "" exactly when every character is ECMAScript whitespace or a line terminator |
| Strings.ToUpper | components/order-details.tsx:88 | a to z map to A to Z (code point minus 32); other characters are unchanged |
| Strings.Capitalize | components/order-details.tsx:88 | `charAt(0).toUpperCase() + slice(1)` keeps the length, upper-cases the first character and keeps the rest |
| Decimal.DigitChar | components/checkout-form.tsx:58 | a digit value maps to the digit character of that value |
| Decimal.NatToString | components/checkout-form.tsx:58 | a non-negative number prints as a non-empty string of digits with no leading zero |
| Decimal.IntToString | store/api-slice.ts:19 | an integer prints as a non-empty string, all digits exactly when it is not negative |
| Decimal.NatToStringRoundTrip | components/checkout-form.tsx:58 | reading the printed digits back gives the number |
| Decimal.IntToStringInjective | store/api-slice.ts:19 | distinct integers print differently |
| QueryParams.ParamIndex | components/login-form.tsx:31 | the position of the first pair with the name, with no earlier such pair; the length when there is none |
| QueryParams.Lookup | components/login-form.tsx:31 | `get` returns nothing exactly when no pair has the name, and otherwise the value of the first pair with that name |
| QueryParams.DeleteParam | components/category-filters.tsx:18 | `delete` removes every pair with the name and keeps every other pair |
| QueryParams.SetParam | components/category-filters.tsx:20 | `set` keeps the pairs ahead of the first one with the name and puts the new pair in its place, or at the end when there is none; `SetParamValue` and `SetParamKeepsOthers` state the rest |
| QueryParams.Serialize | components/category-filters.tsx:22 | `toString` is empty exactly when there are no pairs |
| QueryParams.SerializeTwo | store/api-slice.ts:14 | two pairs serialise as `a=x&b=y` |
| QueryParams.DeleteParamIdempotent | components/category-filters.tsx:18 | deleting a name twice is deleting it once |
| QueryParams.SetParamValue | components/category-filters.tsx:20 | after `set`, `get` returns the new value and every pair with that name holds it |
| QueryParams.SetParamKeepsOthers | components/category-filters.tsx:20 | `set` leaves the pairs of every other name as they were, in order |
| QueryParams.SearchParams.constructor | components/category-filters.tsx:16 | a new object holds the given pairs |
| QueryParams.SearchParams.Append | store/api-slice.ts:12-13 | `append` adds the pair at the end |
| QueryParams.SearchParams.Delete | components/category-filters.tsx:18 | `delete` leaves the pairs `DeleteParam` gives |
| QueryParams.SearchParams.Set | components/category-filters.tsx:20 | `set` leaves the pairs `SetParam` gives |
| QueryParams.SearchParams.ToString | components/category-filters.tsx:22 | `toString` is `Serialize` of the entries, empty exactly when the object holds no pairs |
| CartSlice.LineIndex | store/cart-slice.ts:19 | the line `find` returns is the first with the product id, and one exists exactly when the product is in the cart |
| CartSlice.Added | store/cart-slice.ts:18-25 | with the product present, its first line gains exactly one unit and keeps its product snapshot, and every other line is unchanged; otherwise `{product, 1}` is appended after the existing lines |
| CartSlice.Removed | store/cart-slice.ts:26-28 | no line with the id remains, every remaining line was in the cart, and every line with another id is kept |
| CartSlice.Updated | store/cart-slice.ts:29-38 | an absent id changes nothing, even for q <= 0; a present id with q <= 0 is removal; with q > 0 only that line's quantity becomes q |
| CartSlice.CartTotal | store/cart-slice.ts:58-59 | `selectCartTotal`: the sum of price times quantity, never negative for non-negative prices and quantities |
| CartSlice.CartItemsCount | store/cart-slice.ts:60-61 | `selectCartItemsCount`: the sum of quantities, at least the number of lines when every quantity is positive |
| CartSlice.CartStore.constructor | store/cart-slice.ts:9-12 | the initial state: no lines, drawer closed |
| CartSlice.CartStore.AddToCart | store/cart-slice.ts:18-25 | the lines become `Added(old lines, product)`, the drawer flag is kept, and the cart invariant is preserved |
| CartSlice.CartStore.RemoveFromCart | store/cart-slice.ts:26-28 | the lines become `Removed(old lines, id)`, the drawer flag is kept, and the invariant is preserved |
| CartSlice.CartStore.UpdateQuantity | store/cart-slice.ts:29-38 | the lines become `Updated(old lines, id, q)` for any integer q, the drawer flag is kept, and the invariant is preserved |
| CartSlice.CartStore.ClearCart | store/cart-slice.ts:39-41 | the lines become empty and the drawer flag is kept |
| CartSlice.CartStore.ToggleCart | store/cart-slice.ts:42-44 | the drawer flag flips and the lines are untouched |
| CartSlice.CartStore.SetCartOpen | store/cart-slice.ts:45-47 | the drawer flag takes the given value and the lines are untouched |
| CartSlice.CartStore.HydrateCart | store/cart-slice.ts:48-50 | the lines are replaced wholesale by the unchecked payload |
| CartSlice.CartStore.Dispatch | store/cart-slice.ts:14-52 | each action has its reducer's effect, and every action except a hydration preserves the invariant |
| CartSlice.ToggleTwice | store/cart-slice.ts:42-44 | toggling twice restores the whole state |
| CartSlice.LineIndexOfLine | store/cart-slice.ts:19 | with distinct ids, `find` by a line's own id returns that line |
| CartSlice.FilterKeepsDistinct | store/cart-slice.ts:27 | filtering keeps the ids distinct |
| CartSlice.AddedWellFormed | store/cart-slice.ts:18-25 | `addToCart` preserves one line per id with positive quantities |
| CartSlice.RemovedWellFormed | store/cart-slice.ts:26-28 | `removeFromCart` preserves the invariant |
| CartSlice.UpdatedWellFormed | store/cart-slice.ts:29-38 | `updateQuantity` with any integer preserves the invariant |
| CartSlice.RemovedAbsent | store/cart-slice.ts:26-28 | removing an absent id leaves the lines unchanged |
| CartSlice.RemovedConcat | store/cart-slice.ts:27 | removal keeps the remaining lines in their relative order |
| CartSlice.UpdateNonPositiveIsRemove | store/cart-slice.ts:29-38 | `updateQuantity(id, q)` with q <= 0 equals `removeFromCart(id)`, whether or not the line exists |
| CartSlice.AddedTimes | components/product-details.tsx:23-25 | n `addToCart(product)` dispatches in a row never shorten the cart; `AddedTimesEffect` states their whole effect |
| CartSlice.AddedTimesGrows | store/cart-slice.ts:18-21 | n adds of a product already in the cart grow its line by exactly n and change nothing else |
| CartSlice.AddedTimesAppends | store/cart-slice.ts:22-24 | n >= 1 adds of a new product append one line of quantity n |
| CartSlice.AddedTimesEffect | store/cart-slice.ts:18-25 | n adds grow an existing line by n, or append one line of quantity n for a new product |
| CartSlice.AddedTimesWellFormed | store/cart-slice.ts:18-25 | any number of adds preserves the invariant |
| CartSlice.AddedTimesFromEmpty | store/cart-slice.ts:18-25 | from an empty cart, n >= 1 adds of one product give exactly one line, of quantity n |
| CartSlice.CartTotalUpdate | store/cart-slice.ts:58-59 | replacing one line changes the total by the difference of the two line totals |
| CartSlice.CartItemsCountUpdate | store/cart-slice.ts:60-61 | replacing one line changes the count by the difference of the two quantities |
| CartSlice.CartTotalAdded | store/cart-slice.ts:58-59 | each `addToCart` raises the total by the unit price of the product's line: the stored snapshot's price, or the new product's price |
| CartSlice.CartItemsCountAdded | store/cart-slice.ts:60-61 | each `addToCart` raises the item count by exactly one |
| CartSlice.UnitPriceAddedOther | store/cart-slice.ts:18-25 | adding one product does not change the unit price on record for another |
| CartSlice.CartTotalAddCommutes | store/cart-slice.ts:18-25 | the total does not depend on the order in which two distinct products are added |
| AuthSlice.AuthStore.constructor | store/auth-slice.ts:4-10 | the initial state is anonymous: no user or token, not authenticated, not loading, no error |
| AuthSlice.AuthStore.SetCredentials | store/auth-slice.ts:16-22 | stores the user and token, authenticates, and clears loading and the error |
| AuthSlice.AuthStore.SetLoading | store/auth-slice.ts:23-25 | changes only the loading flag |
| AuthSlice.AuthStore.SetError | store/auth-slice.ts:26-29 | sets the error and clears loading; the user, token and authentication are kept |
| AuthSlice.AuthStore.Logout | store/auth-slice.ts:30-35 | returns every field to its initial value from any state |
| AuthSlice.AuthStore.HydrateAuth | store/auth-slice.ts:41-48 | a payload authenticates with its user and token; null keeps an existing session; both end loading and keep the error |
| AuthSlice.AuthStore.Dispatch | store/auth-slice.ts:12-50 | each action has its reducer's whole effect (`setLoading` and `setError` keep the user, the token and the authentication), and every action preserves "authenticated exactly when a user and a token are held" |
| Proxy.IsProtectedRoute | proxy.ts:5-11 | a path is protected exactly when one of the three routes is a plain prefix of it |
| Proxy.LoginRedirect | proxy.ts:19-21 | the login URL is `/login` with the single parameter `redirect` set to the path |
| Proxy.ProxyDecision | proxy.ts:13-25 | redirects exactly when the path is protected and the token is missing or empty; the redirect goes to `/login` with `redirect` equal to the path |
| Proxy.UnprotectedPasses | proxy.ts:13 | a path outside the three prefixes passes, whatever the token |
| Proxy.TokenPasses | proxy.ts:17 | a protected path with a non-empty token passes |
| Proxy.PrefixExamples | proxy.ts:11 | "/ordersX" and "/checkout/success" are protected; "/" and "/order" are not |
| Proxy.AnonymousOrderVisit | proxy.ts:19-21 | an anonymous visit to /orders/42 goes to /login?redirect=/orders/42 |
| Providers.UpTo | components/providers.tsx:21 | the text before the first occurrence of the character, which it does not contain |
| Providers.Marker | components/providers.tsx:20 | the separator `; name=` starts with ";" |
| Providers.SplitFirstIsUpTo | components/providers.tsx:21 | the first part of a split on ";" is the text before the first ";" |
| Providers.UpToUnique | components/providers.tsx:21 | the text before the first ";" is the only prefix free of ";" that stops at one or at the end |
| Providers.GetCookieSpec | components/providers.tsx:18-22 | `getCookie` finds a value exactly when "; name=" occurs once in "; " + the cookie string; the value is the text after it up to the next ";" |
| Providers.GetCookie | components/providers.tsx:18-22 | `getCookie`; it has no contract of its own, and `GetCookieSpec`, `GetCookieValueClean`, `GetCookieSingle`, `GetCookieDuplicate` and `GetCookieSuffixName` state what it returns |
| Providers.GetCookieValueClean | components/providers.tsx:21 | a found value never contains ";" |
| Providers.GetCookieSingle | components/providers.tsx:18-22 | the cookie string `name=value` yields value |
| Providers.GetCookieDuplicate | components/providers.tsx:20-22 | a name set twice yields null |
| Providers.GetCookieSuffixName | components/providers.tsx:19-22 | a cookie whose name only ends with the name asked for (as "xauth-token" ends with "auth-token") does not match |
| Providers.AuthPayload | components/providers.tsx:25-37 | the `hydrateAuth` payload holds the user and token exactly when both cookies are non-empty and the user data decodes, and is null otherwise |
| Providers.CartPayload | components/providers.tsx:40-48 | a `hydrateCart` payload exists exactly when a non-empty saved cart parses, and it is the parsed lines |
| Providers.PersistedCartRestored | components/providers.tsx:40-48 | a cart saved from the store is restored as it was, for any codec whose parse inverts its serialisation |
| Providers.Hydrate | components/providers.tsx:16-49 | start-up dispatches `hydrateAuth` with the cookie payload and ends auth loading; the cart is replaced only by a payload that parses, and is otherwise left as it was |
| SessionCookie.CookieAssignment | components/login-form.tsx:61-62 | the cookie assignment is `name=value; path=/; max-age=604800` |
| SessionCookie.MaxAgeText | components/login-form.tsx:61 | the max-age prints as 604800 |
| SessionCookie.MaxAgeIsOneWeek | components/login-form.tsx:61 | the cookie's max-age is 604800 seconds, one week |
| Pricing.Shipping | components/checkout-form.tsx:26 | shipping is 0 exactly when the subtotal is at least 50, and 5 otherwise |
| Pricing.Tax | components/checkout-form.tsx:27 | tax on a non-negative subtotal lies between 0 and the subtotal |
| Pricing.CheckoutTotal | components/checkout-form.tsx:26-28 | the checkout total is 1.08 times the subtotal, plus 5 below the threshold |
| Pricing.CartPageTotal | components/cart-content.tsx:16-17 | the cart-page total is the subtotal, plus 5 below the threshold, with no tax |
| Pricing.TaxAdditive | components/checkout-form.tsx:27 | the tax of a sum is the sum of the taxes |
| Pricing.CheckoutTotalIsCartPageTotalPlusTax | components/checkout-form.tsx:28 | the checkout total exceeds the cart-page total by exactly the tax |
| Pricing.FreeShippingCanLowerTotal | components/checkout-form.tsx:26-28 | 49 costs 57.92 at checkout and 50 costs 54, so reaching the threshold lowers the price paid |
| CartContent.CartPage | components/cart-content.tsx:16-19 | the empty state shows exactly when there are no lines; the summary counts lines and gives the subtotal, shipping and cart-page total; the free-shipping hint shows exactly below 50 and states the positive amount 50 minus the subtotal |
| CartContent.RemovePayload | components/cart-content.tsx:65 | the trash button removes the line's product id |
| CartContent.MinusPayload | components/cart-content.tsx:76-83 | minus sends the line's quantity minus one for its product id |
| CartContent.PlusPayload | components/cart-content.tsx:92-99 | plus sends the line's quantity plus one for its product id |
| CartContent.MinusAtOneRemoves | components/cart-content.tsx:76-83 | minus on a line of quantity 1 removes that line |
| CartContent.PlusIsAddToCart | components/cart-content.tsx:92-99 | in a well-formed cart, plus on a line equals adding that product again |
| CartContent.LineCountIsNotUnitCount | components/cart-content.tsx:122 | "(n items)" counts lines: one line of three units reads 1 while the unit count is 3 |
| CartDrawer.Drawer | components/cart-drawer.tsx:24-28 | the header counts lines, the empty state shows exactly for no lines, and "Free" shows exactly when the total is at least 50, with a flat label of 5 otherwise |
| CartDrawer.DrawerAgreesWithCartPage | components/cart-drawer.tsx:118 | the drawer's grand total and line count equal the cart page's for the same cart |
| CartDrawer.ShippingLabelMatchesFee | components/cart-drawer.tsx:113-118 | the grand total adds exactly the fee the shipping label names |
| CartDrawer.DrawerAction | components/cart-drawer.tsx:19-124 | the open change sets the flag to its value; proceed, continue and continue-from-empty close the drawer; the line buttons send the cart page's payloads |
| CartDrawer.DrawerLink | components/cart-drawer.tsx:35-36 | only the two link buttons navigate; continue from the empty cart goes to "/" and proceed goes to /checkout |
| CartDrawer.HandleEvent | components/cart-drawer.tsx:19-124 | a closing control leaves the drawer closed with the lines untouched; the open change sets the flag; trash, minus and plus leave the lines `Removed`, `Updated` to quantity minus one, and `Updated` to quantity plus one, with the flag kept; the store invariant is preserved |
| CheckoutForm.CheckoutPage | components/checkout-form.tsx:26-28 | an empty cart redirects to /cart; otherwise the summary gives the subtotal, shipping, tax and checkout total |
| CheckoutForm.ExampleCheckout | components/checkout-form.tsx:26-28 | two units at 10 and one at 5 give subtotal 25, shipping 5, tax 2 and total 32 |
| CheckoutForm.InitialForm | components/checkout-form.tsx:31-43 | every field is present; name and email come from the signed-in user, the address fields from their address or "", the country is "US" and the card fields are empty |
| CheckoutForm.OrderId | components/checkout-form.tsx:58 | the id is "ORD-" followed by the timestamp's digits |
| CheckoutForm.OrderIdInjective | components/checkout-form.tsx:58 | orders placed at different instants get different ids |
| CheckoutForm.NewOrder | components/checkout-form.tsx:61-74 | the order has the given id, the cart lines, status processing, no user id, the checkout total, the shipping address with the full name "first last" and the form's address, city, zipcode and country, and the given creation time |
| CheckoutForm.ExistingOrders | components/checkout-form.tsx:76 | a missing or empty entry reads as no orders; anything else is parsed |
| CheckoutForm.SuccessPath | components/checkout-form.tsx:83 | the confirmation path is `/checkout/success?orderId=` followed by exactly the order id |
| CheckoutForm.CheckoutFormState.constructor | components/checkout-form.tsx:31-43 | the form starts from `InitialForm` and is not processing |
| CheckoutForm.CheckoutFormState.HandleInputChange | components/checkout-form.tsx:45-48 | the named field takes the value and all other fields are kept |
| CheckoutForm.CheckoutFormState.HandleSubmit | components/checkout-form.tsx:50-84 | the stored list becomes the new order followed by the earlier ones, then the cart is cleared, then the page goes to the success URL; unreadable stored orders stop it before anything is written, and the cart is kept |
| OrderDetails.FindOrder | components/order-details.tsx:40 | the first order with the id, or none exactly when no order has it |
| OrderDetails.LoadedOrder | components/order-details.tsx:35-47 | a saved list that parses decides the order; a missing, empty or unreadable entry leaves it as it was |
| OrderDetails.OrderDetailsView.constructor | components/order-details.tsx:31-32 | the view starts loading, with no order |
| OrderDetails.OrderDetailsView.Load | components/order-details.tsx:35-47 | the order becomes `LoadedOrder(...)` and loading ends |
| OrderDetails.StatusLabel | components/order-details.tsx:88 | the label is the status name with its first letter upper-cased |
| OrderDetails.StatusLabels | components/order-details.tsx:88 | the four labels are Pending, Processing, Shipped and Delivered |
| OrderDetails.Screen | components/order-details.tsx:49-147 | loading, not found exactly when no order is held, otherwise the order with its subtotal recomputed from the lines, the checkout shipping and tax, and the stored total |
| OrderDetails.PlacedOrderFound | components/order-details.tsx:40 | the order put first at checkout is the one found for its id |
| OrderDetails.PrependKeepsOtherLookups | components/order-details.tsx:40 | every other id is looked up in the earlier orders exactly as before |
| OrderDetails.ReloadShowsPlacedOrder | components/order-details.tsx:35-47 | after checkout, the new order's page shows that order whenever storage reads back what it wrote |
| OrderDetails.PlacedOrderFiguresAgree | components/order-details.tsx:68-70 | for an order placed at checkout, the recomputed subtotal, shipping and tax add up to the stored total |
| OrdersList.LoadedOrders | components/orders-list.tsx:30-41 | a saved list that parses replaces the list; otherwise it is left as it was |
| OrdersList.OrdersListView.constructor | components/orders-list.tsx:27-28 | the view starts loading, with no orders |
| OrdersList.OrdersListView.Load | components/orders-list.tsx:30-41 | the list becomes `LoadedOrders(...)` and loading ends |
| OrdersList.FirstLoadOfBadDataIsEmpty | components/orders-list.tsx:30-41 | on first load, missing or unreadable data leaves the list empty |
| OrdersList.QuantityBadge | components/orders-list.tsx:106 | a badge shows exactly for more than one unit, and it shows the quantity |
| OrdersList.ThumbnailsOf | components/orders-list.tsx:98 | one thumbnail per line, in order, each with that line's badge |
| OrdersList.Thumbnails | components/orders-list.tsx:98 | at most four thumbnails, exactly those (with their badges) of the first lines |
| OrdersList.Overflow | components/orders-list.tsx:113-115 | the overflow marker shows exactly for more than four lines |
| OrdersList.ThumbnailsAndOverflowCoverLines | components/orders-list.tsx:98-115 | the thumbnails and the overflow count together account for every line exactly once |
| OrdersList.Card | components/orders-list.tsx:70-124 | a card shows the id, the status label, the thumbnails and overflow, the summed quantity and the stored total |
| OrdersList.Cards | components/orders-list.tsx:70 | one card per order, in stored order |
| OrdersList.Screen | components/orders-list.tsx:43-70 | a skeleton while loading, the empty state exactly for no orders, otherwise exactly `Cards(orders)`: one full card per order, in stored order |
| OrdersList.NewestOrderFirst | components/orders-list.tsx:70 | after checkout has put an order first, its card comes first |
| ProductDetails.ProductDetailsView.constructor | components/product-details.tsx:19-20 | the quantity starts at 1, with no confirmation |
| ProductDetails.ProductDetailsView.IncrementQuantity | components/product-details.tsx:33 | the quantity grows by one |
| ProductDetails.ProductDetailsView.DecrementQuantity | components/product-details.tsx:34 | the quantity drops by one but never below 1 |
| ProductDetails.ProductDetailsView.HandleAddToCart | components/product-details.tsx:22-26 | the cart becomes the old cart with `addToCart` applied exactly `quantity` times and keeps its invariant; the confirmation is set |
| ProductDetails.ProductDetailsView.AddedTimeout | components/product-details.tsx:27-30 | the timer clears the confirmation and opens the drawer, leaving the lines untouched |
| ProductDetails.Stars | components/product-details.tsx:77-81 | five stars, star i filled exactly when i < floor(rate) |
| ProductDetails.FilledCount | components/product-details.tsx:77-81 | the filled count is at most 5 |
| ProductDetails.StarsShape | components/product-details.tsx:77-81 | the stars are floor(rate), clamped to 0..5, filled ones, followed by empty ones |
| ProductDetails.BestSellerHasFourStars | components/product-details.tsx:64 | a product with the Best Seller badge shows at least four filled stars |
| RegisterForm.Requirements | components/register-form.tsx:38-42 | three entries: length at least 8, an ASCII digit, an A-Z letter, each met exactly when its condition holds |
| RegisterForm.RequirementsIff | components/register-form.tsx:38-42 | a password passes exactly when it has length at least 8, a digit and an upper-case A-Z letter |
| RegisterForm.StrongPasswordPasses | components/register-form.tsx:38-42 | "Passw0rd" passes |
| RegisterForm.ShortPasswordFails | components/register-form.tsx:38-42 | "Pass1" fails on length |
| RegisterForm.ValidationError | components/register-form.tsx:50-60 | a mismatch is reported first, then the requirements; there is no error exactly when both checks pass |
| RegisterForm.InitialForm | components/register-form.tsx:23-30 | every field is present and empty |
| RegisterForm.NewUserId | components/register-form.tsx:86 | the server's id when it is present and non-zero, otherwise the timestamp |
| RegisterForm.Btoa | components/register-form.tsx:96 | `btoa` fails exactly when some character is above U+00FF, and otherwise gives the base64 text |
| RegisterForm.WideUsernameBreaksToken | components/register-form.tsx:96 | a username with a character above U+00FF, copied into the token text, makes the token step fail |
| RegisterForm.LukaszTokenFails | components/register-form.tsx:96 | the token text for the username "Łukasz" cannot be encoded |
| RegisterForm.RegisterFormState.NewUser | components/register-form.tsx:85-93 | the new user has the chosen id, the form's email, username and names, and no address or phone |
| RegisterForm.RegisterFormState.TokenFor | components/register-form.tsx:96 | the token is missing exactly when the JSON of the new user's id and username has a character above U+00FF, where `btoa` throws; otherwise it is the base64 encoding of that JSON |
| RegisterForm.RegisterFormState.constructor | components/register-form.tsx:23-30 | the form starts empty, with no error, not submitting |
| RegisterForm.RegisterFormState.HandleInputChange | components/register-form.tsx:32-36 | any edit updates that field and clears the error |
| RegisterForm.RegisterFormState.HandleSubmit | components/register-form.tsx:44-112 | a request is sent exactly when validation passes; a failed validation changes nothing in the store; a failed request or a thrown `btoa` shows the fixed message, writes no cookie, does not navigate and leaves every auth field as it was; otherwise both cookies are written, the new user and token are stored and the page goes to "/"; submitting always ends |
| LoginForm.RedirectUrl | components/login-form.tsx:31 | the `redirect` parameter when present and non-empty, otherwise "/" |
| LoginForm.LoginReturnsToGuardedPage | components/login-form.tsx:31 | after the guard has redirected a visitor, signing in returns them to the page they asked for |
| LoginForm.DemoUser | components/login-form.tsx:51-59 | id 1, email `username@example.com`, first name the username with its first character upper-cased, last name "User", no address or phone |
| LoginForm.DemoUserExample | components/login-form.tsx:51-59 | "mor_2314" gives first name "Mor_2314" and email "mor_2314@example.com" |
| LoginForm.LoginFormState.constructor | components/login-form.tsx:26-29 | both inputs start empty, with no error |
| LoginForm.LoginFormState.HandleInputChange | components/login-form.tsx:33-37 | the named input takes the value, the other is kept, and the local error is cleared |
| LoginForm.LoginFormState.HandleSubmit | components/login-form.tsx:39-73 | sends the two inputs; success writes both cookies, stores the demo user with the returned token, and goes to the redirect target; failure shows the fixed message and records "Login failed" without touching the session; submitting always ends |
| RelatedProducts.RelatedUrl | components/related-products.tsx:10 | the request URL is the category endpoint followed by the encoded category |
| RelatedProducts.GetRelatedProducts | components/related-products.tsx:13-15 | a non-ok response gives none; otherwise the first four fetched products other than the excluded one, or all of them when there are fewer |
| RelatedProducts.RelatedIsSubsequence | components/related-products.tsx:15 | the result keeps the fetched order: it is a subsequence of the response |
| RelatedProducts.RelatedKeepsAllWhenFew | components/related-products.tsx:15 | with at most four other products, all of them are shown |
| RelatedProducts.FailedFetchRendersNothing | components/related-products.tsx:13-23 | a non-ok response renders nothing |
| CategoryFilters.SelectValue | components/category-filters.tsx:27 | the current sort, or "default" when it is missing or empty |
| CategoryFilters.SortParams | components/category-filters.tsx:17-21 | the parameters after the sort choice; `DefaultRemovesSort`, `ChoiceSetsSort` and `OtherParamsKept` state what they hold |
| CategoryFilters.HandleSortChange | components/category-filters.tsx:15-23 | the URL is the path, "?", and the current parameters with `sort` deleted for "default" or set otherwise |
| CategoryFilters.DefaultRemovesSort | components/category-filters.tsx:17-18 | choosing "default" leaves no `sort` parameter |
| CategoryFilters.ChoiceSetsSort | components/category-filters.tsx:19-20 | any other choice becomes the one `sort` value, replacing a previous one |
| CategoryFilters.OtherParamsKept | components/category-filters.tsx:16-20 | every other parameter survives either choice, in its order |
| ApiSlice.ProductsParams | store/api-slice.ts:11-13 | `limit` is present exactly when truthy and comes first, `sort` exactly when given and comes last, and there are no other parameters |
| ApiSlice.ProductsPath | store/api-slice.ts:14 | "/products" alone without parameters, otherwise followed by "?" and the query |
| ApiSlice.GetProductsQuery | store/api-slice.ts:10-15 | appending to a fresh `URLSearchParams` builds `ProductsPath(ProductsParams(args))` |
| ApiSlice.ProductsPathBare | store/api-slice.ts:10-14 | neither argument, or a zero limit, gives exactly "/products" |
| ApiSlice.ProductsParamsExample | store/api-slice.ts:12-13 | a limit of 5 and a descending sort give both parameters, limit first |
| ApiSlice.LimitSortSerialized | store/api-slice.ts:14 | those parameters serialise as "limit=5&sort=desc" |
| ApiSlice.ProductsPathExample | store/api-slice.ts:10-14 | the path is "/products?limit=5&sort=desc" |
| ApiSlice.PathWithId | store/api-slice.ts:19 | a fixed prefix followed by the printed id |
| ApiSlice.PathWithIdInjective | store/api-slice.ts:19 | under one prefix, distinct ids give distinct paths |
| ApiSlice.ProductByIdPath | store/api-slice.ts:19 | "/products/" followed by the printed id |
| ApiSlice.ProductByIdPathInjective | store/api-slice.ts:19 | distinct ids give distinct paths |
| ApiSlice.CategoryPath | store/api-slice.ts:23 | "/products/category/" followed by the category as given, without encoding |
| ApiSlice.UserPath | store/api-slice.ts:39 | "/users/" followed by the printed id |
| ApiSlice.LoginQuery | store/api-slice.ts:31-37 | a POST to /auth/login with the credentials as body |
| Header.SearchTarget | components/header.tsx:39-44 | navigates exactly when the trimmed query is non-empty, to /search with the untrimmed query |
| Header.SearchExamples | components/header.tsx:41-42 | a blank query goes nowhere; " bag " is sent as typed |
| Header.BadgeAgreesWithCart | components/header.tsx:35-149 | in a well-formed cart the badge shows exactly when there is a line, and it counts at least as many units as the drawer counts lines |
| Header.BadgeCountsUnits | components/header.tsx:35 | one line of two units gives a badge of 2 and a drawer count of 1 |
| Header.OpenCart | components/header.tsx:143 | the cart button opens the drawer and leaves the lines untouched |
| Header.HandleLogout | components/header.tsx:46-49 | sign-out returns the auth store to its initial state, then goes to "/" |

## Left out

- Rendering is not modelled: JSX, styling, icons, skeletons and breadcrumbs. Only the values the views compute are modelled, as small view datatypes.
- The `config.matcher` of proxy.ts:28-30 is not modelled. It is framework routing, not part of the decision.
- The URL origin of the login redirect is not modelled: a `Url` is a path and its query.
- Browser I/O is not modelled: `document.cookie` writes, `localStorage` reads and writes, and the store subscription (components/providers.tsx:52-58) that saves the cart on every change. Stored contents are inputs. `Providers.PersistedCartRestored` states the round trip for any codec.
- The cookie clearing in `logout` (store/auth-slice.ts:37-39) is a browser side effect and is not modelled. It clears only `auth-token`.
- Percent-encoding is not modelled. `URLSearchParams` serialises pairs as `name=value` joined by `&`. `encodeURIComponent`, `decodeURIComponent`, `JSON.parse`, `JSON.stringify` and the base64 encoding of `btoa` are parameters. `encodeURIComponent` is total here: it throws only on lone surrogates, and a Dafny string holds Unicode scalar values, so it cannot hold one.
- A stored orders value that parses but is not an array is treated as a parse failure. So is a cart or user that does not have the declared shape.
- Timers are not modelled as time. The 2000 ms wait of checkout is left out. The 500 ms timer of the product page is the separate method `ProductDetails.ProductDetailsView.AddedTimeout`. `Date.now()` and `toISOString` are parameters.
- Network requests are not modelled. Their outcomes are parameters: a token or nothing for the login, an ok response with an optional id or a failure for registration, and a product list or nothing for related products. `ApiSlice` models only the request each endpoint builds.
- Floating point is not modelled: money is an exact `real` and `toFixed(2)` is not modelled. Prices and tax are exact, so a total that IEEE doubles would round differently is not captured.
- `toUpperCase` is modelled for ASCII letters only. Strings are sequences of code points, not UTF-16 units.
- `LoginForm.LoginFormState` holds the form's two fields as two fields rather than a dictionary. An edit to any other name changes neither.
- `ProductDetails.ProductDetailsView.HandleAddToCart`: the `ensures` ties the cart to `AddedTimes`. The per-line effect, growth by exactly `quantity`, is stated by `CartSlice.AddedTimesEffect` rather than in the method's own contract.
- The React batching of state updates, and the interleaving of a pending request with other dispatches, are not modelled. Each handler is one atomic sequence.
- `components/product-card.tsx`, `components/profile-content.tsx`, `store/store.ts` and the page wrappers under `app/` are not part of this model. The store root is the pair of a `CartStore` and an `AuthStore`.
