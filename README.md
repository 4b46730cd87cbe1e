# Iligan Food Hub — a Dafny model of the ordering core

Iligan Food Hub is a React single-page food-ordering app backed by Supabase.
This project models the logic of its ordering core and proves properties of it:

- **Checkout** (`checkout.dfy`, module `Checkout`): the basket subtotal and
  the shipping address format. It also covers the ordered checks of "Place
  Order", the order header and line items written to the store, the
  compensating delete when the item insert fails, and the restaurant name
  handed to tracking.
- **Order history** (`order_history.dfy`, module `OrderHistory`): every
  fetched order is split into one display segment per restaurant name. The
  grouping dictionary is filled in place, item by item, in the method
  `GroupByRestaurant`. It is proved equal to a functional specification,
  `Groups`, and the partition and sum laws are proved about `Groups`.
- **Owner dashboard** (`owner_dashboard.dfy`, module `OwnerDashboard`): the
  status flow (`getNextStatus`) and the actions an order card offers. It also
  covers the status filter, a status update, the rebuilding of a restaurant's
  orders from its item rows, the login/registration and product-form checks,
  and the bounded restaurant-insert retry loop.
- **Order tracking** (`order_tracking.dfy`, module `OrderTracking`): the
  index-based "receiving / cancellable / shipped / demo next status" rules,
  evaluated over a status list passed in as a parameter. It also covers the
  status pill fallback and the tracked order's status update.
- **App shell** (`app.dfy`, module `App`): the routing effect that
  normalises the page against the sign-in state, and the content switch with
  its two redirects. It also covers the basket badge count and the greeting
  name.
- `common.dfy` (module `Common`) is shared vocabulary:
  - `Option`/`Result`;
  - JavaScript's left-fold `reduce` as `SumBy`;
  - selection by key with the partition law `PartitionSum`;
  - `indexOf` (-1 when absent);
  - `split(c)[0]` and `slice(0, n)`.

Modelling conventions:

- Money is an integer number of centavos. The flat delivery fee is
  `DeliveryFee = 5000`, which is ₱50.00.
- A JavaScript falsy string is the empty string `""`. A missing object (`null`
  user, no selected order) is `None`.
- Every store or authentication reply is an input to the method that
  receives it: an inserted row's id, an error message, or whether a delete
  succeeded.
- Component state is a `class` whose fields the methods update, with
  `modifies this`. Pure computations are functions.

Delivery fee and totals, as the code computes them:

- The delivery fee is a flat constant shown on the summary and is not
  stored. The stored order `total` is the item subtotal.
- An order-history segment's `total` is its restaurant's item subtotal, with
  no fee.

Observations from reading the code that the model records but does not "fix":

- `App.jsx` renders the tracking view without a `supabase` prop
  (src/App.jsx:80), while the view destructures `supabase` from its props
  (src/components/orders/OrderTracking.jsx:63).
  - Even with the import fixed (below), every status update would fail, and
    the failure would only be logged.
  - `TrackingView.UpdateStatus` takes the store's reply as an input, so both
    outcomes are covered.
- As wired, the tracking view never renders at all.
  - `App.jsx` imports it by name (src/App.jsx:12), while
    src/components/orders/OrderTracking.jsx:156 has only a default export.
  - The view imports `ShopeeButton` and `ORDER_STATUSES` from a sibling
    module `./App` (src/components/orders/OrderTracking.jsx:3-4). That
    module is not among the shown files, and none of the shown modules
    exports either name.
  - The `Tracking` case of `App.Render` models the intended wiring, and the
    status list is a parameter of every tracking rule.
- After checkout, `setPage('tracking', order)` passes the enriched order as a
  second argument, which a state setter ignores.
  - No case of the app's content switch is named 'tracking', so the listing
    is shown.
  - `PlaceOrder` still returns the enriched order it builds, and sets the
    page to "tracking".
- The dashboard's item query does not select `food_item_id`. Rebuilt items
  therefore carry no item id, and `OwnerItem` has no such field.
- The outcome of the compensating delete in checkout is not inspected. The
  model takes it as an input and states the orders table for both outcomes.

## Model

| member | source | states |
|---|---|---|
| Common.SumByAppend | src/components/checkout/Checkout.jsx:19 | A left-fold sum over a concatenation is the sum of the two parts' sums. |
| Common.PartitionSum | src/components/orders/OrderHistory.jsx:52-71 | When each key is listed once, the per-key sums add up to the sum over every element whose key is listed (the law behind both grouping proofs). |
| Common.SumByNonNegative | src/components/checkout/Checkout.jsx:19 | A left-fold sum of terms that are never negative is never negative. |
| Common.SelectAppend | src/components/orders/RestaurantOwnerDashboard.jsx:373-374 | `filter` by a key distributes over concatenation, so order and multiplicity are kept. |
| Common.SelectOne | src/components/orders/RestaurantOwnerDashboard.jsx:373-374 | On one element, `filter` by a key keeps it exactly when its key matches. |
| Common.IndexOf | src/components/orders/OrderTracking.jsx:67-68 | `indexOf`: -1 exactly when the value is absent; otherwise a position holding it with no earlier occurrence. |
| Common.IndexOfDistinct | src/components/orders/OrderTracking.jsx:119 | In a list without repetitions `indexOf` finds each entry at its own position. |
| Common.BeforeFirst | src/App.jsx:95 | `split('@')[0]`: a prefix of the text without the separator, followed by the separator unless it is the whole text. |
| Checkout.Subtotal | src/components/checkout/Checkout.jsx:19 | The basket total of price × quantity; 0 for an empty basket. |
| Checkout.DisplayedTotal | src/components/checkout/Checkout.jsx:240-245 | The grand total shown is the subtotal plus the ₱50 fee, so an empty basket shows just the fee. |
| Checkout.SubtotalNonNegative | src/components/checkout/Checkout.jsx:19 | With no negative price or quantity the subtotal is never negative and the grand total never below the fee. |
| Checkout.CheckoutPage.CanPlaceOrder | src/components/checkout/Checkout.jsx:253 | The button is enabled only while not loading, with barangays loaded and a non-empty basket, so the empty-basket check can never fail from it. |
| Checkout.SubtotalAppend | src/components/checkout/Checkout.jsx:19 | The subtotal of an empty basket is 0, and of a basket split in two it is the sum of the parts' subtotals. |
| Checkout.StoredTotalExcludesFee | src/components/checkout/Checkout.jsx:69-77 | The displayed grand total is the stored order total plus the ₱50 fee; the stored total leaves the fee out. |
| Checkout.ShippingAddress | src/components/checkout/Checkout.jsx:45-48 | The address is "Iligan City, Brgy. ", then the barangay, then " • ", then the street detail, each piece at its exact position. |
| Checkout.ShippingAddressInjective | src/components/checkout/Checkout.jsx:45-48 | For barangays of the same length, equal addresses mean the same barangay and the same street detail. |
| Checkout.ValidateOrder | src/components/checkout/Checkout.jsx:51-62 | The order can go ahead exactly when there is a user, the four form fields are filled and the basket is non-empty. Otherwise the message is the first failing check's, in the order user, fields, basket. |
| Checkout.BuildHeader | src/components/checkout/Checkout.jsx:69-77 | The order header stores the user id, the item subtotal as total, the built address, the contact fields, the payment method and the given first status. |
| Checkout.ItemRows | src/components/checkout/Checkout.jsx:91-97 | One line-item row per basket line, in basket order, tagged with the new order id and copying item id, name, price and quantity. |
| Checkout.ItemRowsTotal | src/components/checkout/Checkout.jsx:91-97 | The stored line items add up to the stored header total. |
| Checkout.TrackingRestaurantName | src/components/checkout/Checkout.jsx:111-133 | The name is the restaurant row's name when the food lookup gave a restaurant id and the restaurant lookup returned a row; otherwise "Unknown Restaurant". |
| Checkout.OrderStore.InsertOrder | src/components/checkout/Checkout.jsx:80-87 | A created header is added under its fresh id; a rejected or empty reply writes nothing. |
| Checkout.OrderStore.InsertItems | src/components/checkout/Checkout.jsx:100-102 | The item rows are appended unless the store reports an error. |
| Checkout.OrderStore.DeleteOrder | src/components/checkout/Checkout.jsx:106 | A successful delete removes exactly that order id. |
| Checkout.CheckoutPage.constructor | src/components/checkout/Checkout.jsx:11-16 | The form starts empty with cash on delivery, no barangays, not loading, no error. |
| Checkout.CheckoutPage.LoadBarangays | src/components/checkout/Checkout.jsx:30-38 | Fetched zone names replace the list and the first one is preselected when there is one; an error changes nothing. |
| Checkout.CheckoutPage.PlaceOrder | src/components/checkout/Checkout.jsx:50-151 | A failed check only sets its message. Once the checks pass, loading ends switched off. A failed header insert writes nothing. A failed item insert deletes the header again (so the orders table is as before when the delete succeeds) and reports the item error. Only when both inserts succeed are the basket emptied, the page changed and the enriched order handed over. |
| OrderHistory.RestaurantKey | src/components/orders/OrderHistory.jsx:53-54 | The grouping key is the restaurant name through the optional food item and restaurant, and "" when either is missing. |
| OrderHistory.Located | src/components/orders/OrderHistory.jsx:56 | The items that are not skipped, never more than the input. |
| OrderHistory.LocatedSpec | src/components/orders/OrderHistory.jsx:56 | An item is kept exactly when it has a non-empty restaurant name. |
| OrderHistory.LocatedAppend | src/components/orders/OrderHistory.jsx:56 | Skipping distributes over concatenation, so kept items stay in order with their multiplicity. |
| OrderHistory.Keys | src/components/orders/OrderHistory.jsx:58-64 | The dictionary keys in insertion order, no more of them than kept items. |
| OrderHistory.Groups | src/components/orders/OrderHistory.jsx:52-74 | One group per key, in key order. |
| OrderHistory.DisplayOrders | src/components/orders/OrderHistory.jsx:50-100 | The flattened segments of all orders; its properties are `DisplayOrdersWellFormed`, `DisplayOrdersCount` and `OrderWithoutRestaurantsContributesNothing`. |
| OrderHistory.KeysSpec | src/components/orders/OrderHistory.jsx:53-58 | The dictionary keys are distinct, non-empty restaurant names, each carried by some item, and every item with a name contributes its key. |
| OrderHistory.GroupForFirst | src/components/orders/OrderHistory.jsx:58-69 | The first item with a new name opens a group with that name, that item's restaurant id, just that item and its line total. |
| OrderHistory.GroupForAgain | src/components/orders/OrderHistory.jsx:67-69 | A later item with a known name is pushed onto that group's items and adds its line total to the subtotal. |
| OrderHistory.GroupByRestaurant | src/components/orders/OrderHistory.jsx:52-74 | The dictionary filled in place, read out in key-insertion order, equals the specification `Groups`. |
| OrderHistory.FileItems | src/components/orders/OrderHistory.jsx:52-71 | After the loop, the dictionary holds for each key in first-appearance order the group that specification predicts, and no other key. |
| OrderHistory.GroupsPartition | src/components/orders/OrderHistory.jsx:52-71 | An item lies in a group exactly when the group's name is its restaurant name; every named item has its group; group names are distinct and non-empty. |
| OrderHistory.GroupsWellFormed | src/components/orders/OrderHistory.jsx:58-69 | Every group is non-empty, holds one restaurant's items, has the sum of price × quantity as subtotal and the restaurant id of its first item. |
| OrderHistory.SegmentSubtotalsAddUp | src/components/orders/OrderHistory.jsx:67-69 | The groups' subtotals add up to the subtotal of the items that have a restaurant name. |
| OrderHistory.SegmentSizesAddUp | src/components/orders/OrderHistory.jsx:52-71 | The groups hold, between them, exactly as many items as there are items with a restaurant name. |
| OrderHistory.KeysSelectLocated | src/components/orders/OrderHistory.jsx:56 | Selecting items by the key list keeps exactly the items with a restaurant name. |
| OrderHistory.NoGroupsIffNoLocated | src/components/orders/OrderHistory.jsx:56 | An order yields no group exactly when none of its items has a restaurant name. |
| OrderHistory.SegmentsOf | src/components/orders/OrderHistory.jsx:74-97 | One segment per group, in group order, each built from the order and that group. |
| OrderHistory.DisplayOrdersWellFormed | src/components/orders/OrderHistory.jsx:74-97 | Every displayed segment is non-empty, of one restaurant, has its item subtotal as `total` (no fee) and `order.id + "-" + restaurantId` as display id. |
| OrderHistory.DisplayOrdersCount | src/components/orders/OrderHistory.jsx:50-100 | The number of segments is the sum over orders of their distinct restaurant names. |
| OrderHistory.OrderWithoutRestaurantsContributesNothing | src/components/orders/OrderHistory.jsx:99-100 | Orders keep their fetched order, and an order adds no segment exactly when none of its items has a restaurant name. |
| OrderHistory.OrderHistoryPage.constructor | src/components/orders/OrderHistory.jsx:12-13 | The page starts loading with no segments. |
| OrderHistory.OrderHistoryPage.FetchOrders | src/components/orders/OrderHistory.jsx:15-107 | Without a user nothing is fetched; a query error empties the list; otherwise the list is the segments of the fetched orders; loading ends off. |
| OwnerDashboard.StatusesDistinct | src/components/orders/RestaurantOwnerDashboard.jsx:13 | The seven statuses are distinct. |
| OwnerDashboard.NextStatus | src/components/orders/RestaurantOwnerDashboard.jsx:544-553 | Defined exactly for the first five statuses, where it is the next list entry (index + 1); null otherwise; never "Cancelled". |
| OwnerDashboard.OfferedActions | src/components/orders/RestaurantOwnerDashboard.jsx:654-663 | Nothing for Completed or Cancelled; Cancel exactly for Pending or Preparing; "Mark as" the next status; any action only for one of the first five statuses. |
| OwnerDashboard.OfferedMovesForward | src/components/orders/RestaurantOwnerDashboard.jsx:654-663 | Following an offered action moves one step along the list, or cancels an order that is Pending or Preparing. |
| OwnerDashboard.FilterOrders | src/components/orders/RestaurantOwnerDashboard.jsx:527-529 | "all" keeps every order; an order is kept exactly when it passes the filter; never longer than the input. |
| OwnerDashboard.FilterAppend | src/components/orders/RestaurantOwnerDashboard.jsx:527-529 | Filtering distributes over concatenation, so the original order is kept. |
| OwnerDashboard.FilterIsSelect | src/components/orders/RestaurantOwnerDashboard.jsx:527-529 | Any other filter value keeps exactly the orders with that status, in list order. |
| OwnerDashboard.WithStatus | src/components/orders/RestaurantOwnerDashboard.jsx:332 | Same length; only the status field of orders with the matching id changes, to the new status; every other order and field is unchanged. |
| OwnerDashboard.UpdateOverrides | src/components/orders/RestaurantOwnerDashboard.jsx:332 | A second update of the same order overrides the first. |
| OwnerDashboard.UpdatedOrderShowsUnderNewStatus | src/components/orders/RestaurantOwnerDashboard.jsx:332 | An updated order keeps its id and is listed under its new status's filter. |
| OwnerDashboard.UniqueOrderIds | src/components/orders/RestaurantOwnerDashboard.jsx:357-363 | The ids are distinct, cover every item row, each comes from some row, and there are none exactly when there are no rows. |
| OwnerDashboard.ToItems | src/components/orders/RestaurantOwnerDashboard.jsx:375-380 | One item per row, in row order, keeping name, price and quantity. |
| OwnerDashboard.ToItemsTotal | src/components/orders/RestaurantOwnerDashboard.jsx:382 | The items' price × quantity sum equals the rows'. |
| OwnerDashboard.Rebuild | src/components/orders/RestaurantOwnerDashboard.jsx:372-389 | A rebuilt order keeps its order row and has no more items than there are rows. |
| OwnerDashboard.RebuildContents | src/components/orders/RestaurantOwnerDashboard.jsx:372-389 | A rebuilt order keeps its row, carries exactly the items of the rows with its id, and its subtotal is their price × quantity sum. |
| OwnerDashboard.ToItemsAppend | src/components/orders/RestaurantOwnerDashboard.jsx:375-380 | Mapping rows to items distributes over concatenation. |
| OwnerDashboard.RebuildAppend | src/components/orders/RestaurantOwnerDashboard.jsx:372-389 | Rebuilding from two batches of rows gives the first batch's items followed by the second's, and the two subtotals add up, so order and multiplicity of the rows are kept. |
| OwnerDashboard.RebuildOne | src/components/orders/RestaurantOwnerDashboard.jsx:372-389 | A single row contributes exactly its own item when its order id matches, and nothing otherwise. |
| OwnerDashboard.RebuildAll | src/components/orders/RestaurantOwnerDashboard.jsx:372-389 | One rebuilt order per fetched order, in fetched order. |
| OwnerDashboard.RebuiltSubtotalsAddUp | src/components/orders/RestaurantOwnerDashboard.jsx:357-389 | When the fetched orders are distinct and cover the rows' order ids, the restaurant subtotals add up to the total over all of the restaurant's item rows. |
| OwnerDashboard.ValidateOwnerAuth | src/components/orders/RestaurantOwnerDashboard.jsx:78-88 | A request goes ahead exactly when email and password are given and, for a registration, owner name, restaurant name, barangay and category too; the messages follow that order. |
| OwnerDashboard.AuthFieldsRequired | src/components/orders/RestaurantOwnerDashboard.jsx:84 | The street is never required, and a login depends on email and password only. |
| OwnerDashboard.ValidateProduct | src/components/orders/RestaurantOwnerDashboard.jsx:410-413 | A product save goes ahead exactly when name, price and stock are filled. |
| OwnerDashboard.ProductOptionalFields | src/components/orders/RestaurantOwnerDashboard.jsx:410-413 | Description and image do not affect the check. |
| OwnerDashboard.InsertRestaurantWithRetry | src/components/orders/RestaurantOwnerDashboard.jsx:120-142 | Between one and three inserts are made; every insert before the last failed; it succeeds exactly when the last insert did; a failure means three inserts and the third error, prefixed. |
| OwnerDashboard.Dashboard.Visible | src/components/orders/RestaurantOwnerDashboard.jsx:527-529 | The shown orders are all orders under "all", and otherwise exactly those whose status is the filter. |
| OwnerDashboard.Dashboard.constructor | src/components/orders/RestaurantOwnerDashboard.jsx:285-290 | The filter starts from the saved value, or "all" when none (or "") was saved. |
| OwnerDashboard.Dashboard.UpdateOrderStatus | src/components/orders/RestaurantOwnerDashboard.jsx:323-337 | A store error leaves the list unchanged; success applies `WithStatus`. |
| OwnerDashboard.Dashboard.LoadOrders | src/components/orders/RestaurantOwnerDashboard.jsx:339-396 | No restaurant: nothing happens. A query error keeps the previous list. No item rows give an empty list. Otherwise the list is the rebuilt orders. Loading ends off. |
| OrderTracking.IsCompleted | src/components/orders/OrderTracking.jsx:66 | The completion test; it needs no lemma. |
| OrderTracking.IsReceiving | src/components/orders/OrderTracking.jsx:67 | Index equality with "To Receive"; its meaning is `ReceivingMeaning`. |
| OrderTracking.IsCancellable | src/components/orders/OrderTracking.jsx:68 | Index at most that of "To Ship"; its meaning is `CancellableMeaning` and `UnknownIsCancellable`. |
| OrderTracking.IsShipped | src/components/orders/OrderTracking.jsx:33 | Index at least that of "Shipped"; its meaning is `ShippedMeaning`. |
| OrderTracking.ShowsDemoNext | src/components/orders/OrderTracking.jsx:116-117 | The demo button's condition; its consequences are `DemoNextInRange`. |
| OrderTracking.PillFor | src/components/orders/OrderTracking.jsx:14-21 | The colour scheme looked up by status; its fallback is `PillFallback`. |
| OrderTracking.ReceivingMeaning | src/components/orders/OrderTracking.jsx:67 | "Confirm received" is shown exactly for "To Receive", or for any unlisted status when "To Receive" itself is unlisted. |
| OrderTracking.CancellableMeaning | src/components/orders/OrderTracking.jsx:68 | "Cancel" is shown exactly for an unlisted status (index −1) or a status listed at or before "To Ship". |
| OrderTracking.ShippedMeaning | src/components/orders/OrderTracking.jsx:33 | With "Shipped" unlisted every status reads as shipped; otherwise exactly the listed statuses not before "Shipped" do. |
| OrderTracking.UnknownIsCancellable | src/components/orders/OrderTracking.jsx:68 | An unlisted status (index −1) is always cancellable. |
| OrderTracking.DemoNextInRange | src/components/orders/OrderTracking.jsx:116-119 | Whenever the demo button is shown, the status is listed after "To Ship", and index + 1 is a valid position other than the last one. |
| OrderTracking.DemoNextStatus | src/components/orders/OrderTracking.jsx:119-124 | The proposed status is the list entry after the current one, and so a list entry. |
| OrderTracking.DemoNextPosition | src/components/orders/OrderTracking.jsx:116-124 | For a list without repetitions the proposed status sits one position after the current one, differs from it and is not the last entry. |
| OrderTracking.PillFallback | src/components/orders/OrderTracking.jsx:14-21 | Any status other than the four keys with their own colours gets those of "To Ship". |
| OrderTracking.TrackingView.constructor | src/components/orders/OrderTracking.jsx:64 | The view starts with the order it was given. |
| OrderTracking.TrackingView.UpdateStatus | src/components/orders/OrderTracking.jsx:70-84 | Success changes only the status of the shown order; an error leaves it unchanged. |
| OrderTracking.TrackingView.ConfirmReceived | src/components/orders/OrderTracking.jsx:104-108 | Offered while receiving; success sets "Completed". |
| OrderTracking.TrackingView.Cancel | src/components/orders/OrderTracking.jsx:109-113 | Offered while cancellable; success sets "Cancelled". |
| OrderTracking.TrackingView.DemoAdvance | src/components/orders/OrderTracking.jsx:116-124 | Offered under the demo condition; success sets the next list entry. |
| App.RouteStep | src/App.jsx:29-48 | Without auth ready nothing changes. Signed out: the page becomes "auth" unless it is "auth" or the owner dashboard, and the selection stays. A page change only ever lands on "auth", "products" or "history". Signed in: "auth" becomes "products", "details" without a selection becomes "history", and every other page stays. The selection is only ever cleared, and it is cleared exactly for a signed-in user on a page other than "details". |
| App.RouteStepSettles | src/App.jsx:29-48 | After one run, a signed-out user is on "auth" or the owner dashboard, and a signed-in user is off "auth" with an order selected exactly while on "details". |
| App.SettledIsFixed | src/App.jsx:29-48 | The effect leaves a settled state unchanged. |
| App.RouteStepIdempotent | src/App.jsx:29-48 | A second run of the effect, triggered by the first run's updates, changes nothing. |
| App.NoHistoryRedirectAfterRouting | src/App.jsx:41-43 | Once the effect has run, rendering never needs the details-to-history redirect. |
| App.UnknownPageShowsListing | src/App.jsx:81-82 | For a signed-in user, any page name outside the switch shows the restaurant listing. |
| App.AppShell.RunRoutingEffect | src/App.jsx:29-48 | The state after the effect is `RouteStep` of the state before, and it has settled. |
| App.Render | src/App.jsx:50-84 | Loading exactly while auth is not ready. The owner dashboard is shown exactly on its page, signed in or not. Signed out, only the sign-in page can appear. A redirect happens exactly for checkout with an empty basket (to "products") or details without a selection (to "history"). Tracking shows the selected order. |
| App.AppShell.RenderContent | src/App.jsx:50-84 | A redirect sets its page; any other view changes nothing. |
| App.CartItemCount | src/App.jsx:86 | The badge figure: 0 for an empty basket, the line's quantity for a single line. |
| App.BadgeShown | src/App.jsx:140 | The badge shows only for a non-empty basket. |
| App.CartItemCountAppend | src/App.jsx:86 | The badge count over two baskets' lines is the sum of their counts. |
| App.CartItemCountBounds | src/App.jsx:140 | With every quantity at least one, the count is at least the number of lines and the badge shows exactly when the basket is non-empty. |
| App.DisplayName | src/App.jsx:94-98 | The e-mail's text before the first "@" when there is an e-mail; otherwise "User-" and the first four characters of the id; "Guest" without either. |
| App.AppShell.SignOut | src/App.jsx:22-27 | Sign-out empties the basket (no badge) and goes to "auth". |
| App.AppShell.SetPage | src/App.jsx:133 | Navigation changes the page and nothing else. |
| App.AppShell.constructor | src/App.jsx:18-20 | The shell starts on "products" with an empty basket and no selection. |

## Left out

- JSX rendering, styling and colours: the status badge colours of the
  dashboard, the tracking banner texts and the mock map.
  - The status pill's fallback is kept, as `OrderTracking.PillFor` with
    `PillFallback`.
- `src/components/checkout/AddressMapPreview.jsx`: static markup with no logic.
- Authentication and the Supabase client: sessions, sign-up, sign-in and the
  session subscription.
  - Query shapes, joins, `single()` and the `created_at` ordering are not
    modelled; each query's reply is an input.
  - The history query's nesting is modelled only as the optional restaurant
    reference of each item.
- The dashboard's product list and product editing (`loadProducts`,
  `openEditProduct`, `handleDeleteProduct`, the product insert/update). Only
  the form check before a save is modelled.
- The rest of `handleAuth`:
  - the owner-profile insert;
  - the re-fetch of the new restaurant after the retry loop;
  - the PGRST116 re-check and its timing.
  Only the two field checks and the retry bound are modelled.
- `setTimeout` delays between retries: timing is not modelled, only the
  attempt count.
- The dashboard's sign-out and its remaining effects (restaurant lookup,
  loading on mount).
- Saving the filter to `localStorage` is left out as browser storage. Reading
  it back is the constructor's `savedFilter` input.
- Floating point and formatting:
  - prices are integer centavos;
  - `toFixed(2)` on the dashboard subtotal is not modelled, so the subtotal
    stays a number;
  - `parseFloat`/`parseInt` of product fields and date formatting are not
    modelled.
- `Date.now()`-based product ids.
- `Object.values` key order: JavaScript lists integer-like keys before the
  others. The model reads groups out in first-appearance order, which matches
  every restaurant name that is not a canonical array index.
- OrderHistory.FileItems: ignores inherited object keys. For a restaurant
  name such as "constructor", "toString" or "__proto__", `acc[restaurantId]`
  is already truthy, so the source opens no group and `.items.push` throws a
  TypeError (src/components/orders/OrderHistory.jsx:58-68). The model opens a
  group for every name.
- OrderHistory.GroupByRestaurant: ignores inherited object keys, for the same
  reason; the source's grouping throws for such a name where the model
  returns its groups.
- OrderHistory.OrderHistoryPage.FetchOrders: ignores inherited object keys.
  When the grouping throws, the source never reaches `setLoading(false)`
  (src/components/orders/OrderHistory.jsx:106) and keeps loading; the model
  always ends with loading off.
- OrderTracking.PillFallback: ignores inherited object keys. For such a
  status `statusColors[status]` is a truthy inherited value, so the source
  does not fall back to the "To Ship" colours
  (src/components/orders/OrderTracking.jsx:21), while the model does.
- OwnerDashboard.NextStatus: ignores inherited object keys. For the strings
  "constructor", "toString" and the like, `nextStatuses[current]` yields a
  truthy inherited function. The source would then show a "Mark as" button,
  where the model returns None.
- The concrete `ORDER_STATUSES` used by the tracking view. No shown module
  exports it, so every tracking rule is stated for any list.
  - `DemoNextPosition` states its position facts for lists without
    repetitions.
- React scheduling: state updates are modelled as applied in order, and
  effect re-runs as explicit calls of `RunRoutingEffect`.
  - Concurrency between the asynchronous handlers is not modelled.
