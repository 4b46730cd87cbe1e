/**
 * The restaurant owner's back office: the linear order-status flow and the
 * actions it offers, the status filter, a status update that touches one
 * order, the per-restaurant reconstruction of orders from their item rows,
 * the registration and product-form checks, and the bounded retry of the
 * restaurant insert made during registration.
 */
module OwnerDashboard {
  import opened Common

  /** The owner's status list, in flow order; the last two are the terminal states. */
  const OrderStatuses: seq<string> :=
    ["Pending", "Preparing", "Driver Assigned", "Out for Delivery", "Delivered", "Completed", "Cancelled"]

  // ---------------------------------------------------------------------
  // Status flow and actions
  // ---------------------------------------------------------------------

  /** The statuses are distinct, so "the entry after `current`" is well defined. */
  lemma StatusesDistinct()
    ensures NoDuplicates(OrderStatuses)
  {
  }

  /**
   * `getNextStatus`: defined for the first five statuses exactly, where it is
   * the entry that follows in the list; null for everything else.
   */
  function NextStatus(current: string): (r: Option<string>)
    ensures r.Some? <==> exists i :: 0 <= i < 5 && OrderStatuses[i] == current
    ensures r.Some? ==> exists i :: 0 <= i < 5 && OrderStatuses[i] == current && OrderStatuses[i + 1] == r.value
    ensures r != Some("Cancelled")
  {
    if current == "Pending" then
      assert OrderStatuses[0] == current && OrderStatuses[1] == "Preparing";
      Some("Preparing")
    else if current == "Preparing" then
      assert OrderStatuses[1] == current && OrderStatuses[2] == "Driver Assigned";
      Some("Driver Assigned")
    else if current == "Driver Assigned" then
      assert OrderStatuses[2] == current && OrderStatuses[3] == "Out for Delivery";
      Some("Out for Delivery")
    else if current == "Out for Delivery" then
      assert OrderStatuses[3] == current && OrderStatuses[4] == "Delivered";
      Some("Delivered")
    else if current == "Delivered" then
      assert OrderStatuses[4] == current && OrderStatuses[5] == "Completed";
      Some("Completed")
    else
      None
  }

  /** The buttons shown on an order card: "Mark as <next>" and "Cancel Order". */
  datatype Actions = Actions(advanceTo: Option<string>, cancel: bool)

  function OfferedActions(status: string): (a: Actions)
    ensures status == "Completed" || status == "Cancelled" ==> a == Actions(None, false)
    ensures a.cancel <==> status == "Pending" || status == "Preparing"
    ensures a.advanceTo == NextStatus(status)
    ensures a.advanceTo.Some? || a.cancel ==> exists i :: 0 <= i < 5 && OrderStatuses[i] == status
  {
    if status != "Completed" && status != "Cancelled" then
      Actions(NextStatus(status), status == "Pending" || status == "Preparing")
    else
      Actions(None, false)
  }

  /**
   * Following an offered action moves an order one step along the list or to
   * "Cancelled", and a cancelled or completed order offers nothing to follow.
   */
  lemma OfferedMovesForward(status: string, target: string)
    requires OfferedActions(status).advanceTo == Some(target) || (OfferedActions(status).cancel && target == "Cancelled")
    ensures status != "Completed" && status != "Cancelled"
    ensures target == "Cancelled" ||
      exists i :: 0 <= i < 5 && OrderStatuses[i] == status && OrderStatuses[i + 1] == target
    ensures target == "Cancelled" ==> status == OrderStatuses[0] || status == OrderStatuses[1]
  {
  }

  // ---------------------------------------------------------------------
  // Orders as the dashboard holds them
  // ---------------------------------------------------------------------

  /** A row of the `orders` table. */
  datatype OrderRow = OrderRow(
    id: string, status: string, createdAt: string, shippingAddress: string,
    contactName: string, contactPhone: string, total: int)

  /** A row of the item query: `order_id, name, price, quantity` of this restaurant's items. */
  datatype OwnerItemRow = OwnerItemRow(orderId: string, name: string, price: int, quantity: int)

  /** A rebuilt item; its `food_item_id` is never selected, so it is not carried. */
  datatype OwnerItem = OwnerItem(name: string, price: int, quantity: int)

  /** An order with this restaurant's items and their subtotal. */
  datatype OwnerOrder = OwnerOrder(row: OrderRow, items: seq<OwnerItem>, restaurantSubtotal: int)

  function OrderIdOf(r: OwnerItemRow): string { r.orderId }

  function RowLineTotal(r: OwnerItemRow): int { r.price * r.quantity }

  function ItemLineTotal(i: OwnerItem): int { i.price * i.quantity }

  function StatusOf(o: OwnerOrder): string { o.row.status }

  function Subtotal(o: OwnerOrder): int { o.restaurantSubtotal }

  // ---------------------------------------------------------------------
  // Filtering
  // ---------------------------------------------------------------------

  /** Whether an order passes the filter `statusFilter === 'all' || order.status === statusFilter`. */
  predicate Passes(o: OwnerOrder, filter: string)
  {
    filter == "all" || o.row.status == filter
  }

  /** `filteredOrders`. */
  function FilterOrders(orders: seq<OwnerOrder>, filter: string): (r: seq<OwnerOrder>)
    ensures |r| <= |orders|
    ensures filter == "all" ==> r == orders
    ensures forall o :: o in r <==> o in orders && Passes(o, filter)
  {
    if |orders| == 0 then []
    else
      var rest := FilterOrders(orders[..|orders| - 1], filter);
      var last := orders[|orders| - 1];
      assert orders == orders[..|orders| - 1] + [last];
      if Passes(last, filter) then rest + [last] else rest
  }

  /** Filtering keeps the original order: it distributes over concatenation. */
  lemma {:induction false} FilterAppend(a: seq<OwnerOrder>, b: seq<OwnerOrder>, filter: string)
    ensures FilterOrders(a + b, filter) == FilterOrders(a, filter) + FilterOrders(b, filter)
    decreases |b|
  {
    if |b| > 0 {
      var b' := b[..|b| - 1];
      assert (a + b)[..|a + b| - 1] == a + b';
      assert (a + b)[|a + b| - 1] == b[|b| - 1];
      FilterAppend(a, b', filter);
    } else {
      assert a + b == a;
    }
  }

  /** Any filter other than "all" selects exactly the orders with that status, in list order. */
  lemma {:induction false} FilterIsSelect(orders: seq<OwnerOrder>, filter: string)
    requires filter != "all"
    ensures FilterOrders(orders, filter) == Select(orders, StatusOf, filter)
    decreases |orders|
  {
    if |orders| > 0 {
      FilterIsSelect(orders[..|orders| - 1], filter);
    }
  }

  // ---------------------------------------------------------------------
  // Status update
  // ---------------------------------------------------------------------

  /** `orders.map(o => o.id === orderId ? { ...o, status: newStatus } : o)`. */
  function WithStatus(orders: seq<OwnerOrder>, orderId: string, newStatus: string): (r: seq<OwnerOrder>)
    ensures |r| == |orders|
    ensures forall i :: 0 <= i < |orders| ==>
      && r[i].row == orders[i].row.(status := r[i].row.status)
      && r[i].items == orders[i].items
      && r[i].restaurantSubtotal == orders[i].restaurantSubtotal
      && (orders[i].row.id == orderId ==> r[i].row.status == newStatus)
      && (orders[i].row.id != orderId ==> r[i] == orders[i])
  {
    if |orders| == 0 then []
    else
      var o := orders[|orders| - 1];
      WithStatus(orders[..|orders| - 1], orderId, newStatus)
        + [if o.row.id == orderId then o.(row := o.row.(status := newStatus)) else o]
  }

  /** A second update of the same order overrides the first. */
  lemma UpdateOverrides(orders: seq<OwnerOrder>, orderId: string, s1: string, s2: string)
    ensures WithStatus(WithStatus(orders, orderId, s1), orderId, s2) == WithStatus(orders, orderId, s2)
  {
    var a := WithStatus(WithStatus(orders, orderId, s1), orderId, s2);
    var b := WithStatus(orders, orderId, s2);
    forall i | 0 <= i < |orders| ensures a[i] == b[i] {
    }
  }

  /** After an update the order appears under its new status's filter, and the set of ids is the same. */
  lemma UpdatedOrderShowsUnderNewStatus(orders: seq<OwnerOrder>, i: int, newStatus: string)
    requires 0 <= i < |orders|
    ensures var r := WithStatus(orders, orders[i].row.id, newStatus);
      r[i] in FilterOrders(r, newStatus) && r[i].row.id == orders[i].row.id
  {
    var r := WithStatus(orders, orders[i].row.id, newStatus);
    assert r[i] in r;
  }

  // ---------------------------------------------------------------------
  // Rebuilding orders from item rows
  // ---------------------------------------------------------------------

  /** `[...new Set(items.map(i => i.order_id))]`: the order ids in first-appearance order. */
  function UniqueOrderIds(items: seq<OwnerItemRow>): (ids: seq<string>)
    ensures NoDuplicates(ids)
    ensures forall r :: r in items ==> r.orderId in ids
    ensures forall id :: id in ids ==> exists r :: r in items && r.orderId == id
    ensures |ids| == 0 <==> |items| == 0
  {
    if |items| == 0 then []
    else
      var init := items[..|items| - 1];
      var last := items[|items| - 1];
      var ids := UniqueOrderIds(init);
      assert forall r :: r in items ==> r in init || r == last;
      assert forall r :: r in init ==> r in items;
      if last.orderId in ids then ids else ids + [last.orderId]
  }

  /** The `map` that keeps `name, price, quantity` of an item row. */
  function ToItem(r: OwnerItemRow): OwnerItem { OwnerItem(r.name, r.price, r.quantity) }

  function ToItems(rows: seq<OwnerItemRow>): (items: seq<OwnerItem>)
    ensures |items| == |rows|
    ensures forall i :: 0 <= i < |rows| ==> items[i] == ToItem(rows[i])
  {
    if |rows| == 0 then [] else ToItems(rows[..|rows| - 1]) + [ToItem(rows[|rows| - 1])]
  }

  lemma {:induction false} ToItemsTotal(rows: seq<OwnerItemRow>)
    ensures SumBy(ToItems(rows), ItemLineTotal) == SumBy(rows, RowLineTotal)
    decreases |rows|
  {
    if |rows| > 0 {
      var items := ToItems(rows);
      assert items[..|items| - 1] == ToItems(rows[..|rows| - 1]);
      ToItemsTotal(rows[..|rows| - 1]);
    }
  }

  lemma ToItemsAppend(a: seq<OwnerItemRow>, b: seq<OwnerItemRow>)
    ensures ToItems(a + b) == ToItems(a) + ToItems(b)
  {
    var l, r := ToItems(a + b), ToItems(a) + ToItems(b);
    forall i | 0 <= i < |a + b| ensures l[i] == r[i] {
      if i < |a| {
        assert (a + b)[i] == a[i];
      } else {
        assert (a + b)[i] == b[i - |a|];
      }
    }
  }

  /** One element of `fullOrders`: the order, its relevant items, and their subtotal. */
  function Rebuild(order: OrderRow, rows: seq<OwnerItemRow>): (r: OwnerOrder)
    ensures r.row == order
    ensures |r.items| <= |rows|
  {
    var relevant := ToItems(Select(rows, OrderIdOf, order.id));
    OwnerOrder(order, relevant, SumBy(relevant, ItemLineTotal))
  }

  /**
   * A rebuilt order carries exactly the item rows with its id, in row order,
   * and its subtotal is the sum of price times quantity over those rows.
   */
  lemma RebuildContents(order: OrderRow, rows: seq<OwnerItemRow>)
    ensures Rebuild(order, rows).row == order
    ensures forall it :: it in Rebuild(order, rows).items <==>
      exists r :: r in rows && r.orderId == order.id && ToItem(r) == it
    ensures Rebuild(order, rows).restaurantSubtotal == SumBy(Select(rows, OrderIdOf, order.id), RowLineTotal)
  {
    var sel := Select(rows, OrderIdOf, order.id);
    var items := ToItems(sel);
    ToItemsTotal(sel);
    forall it | it in items ensures exists r :: r in rows && r.orderId == order.id && ToItem(r) == it {
      var i :| 0 <= i < |items| && items[i] == it;
      assert sel[i] in sel;
    }
    forall r | r in rows && r.orderId == order.id ensures ToItem(r) in items {
      var i :| 0 <= i < |sel| && sel[i] == r;
      assert items[i] == ToItem(r);
    }
  }

  /**
   * Rebuilding keeps the rows' order and multiplicity: the items of the rows
   * `a + b` are those of `a` followed by those of `b`, and one row contributes
   * its item exactly when it carries the order's id.
   */
  lemma RebuildAppend(order: OrderRow, a: seq<OwnerItemRow>, b: seq<OwnerItemRow>)
    ensures Rebuild(order, a + b).items == Rebuild(order, a).items + Rebuild(order, b).items
    ensures Rebuild(order, a + b).restaurantSubtotal
         == Rebuild(order, a).restaurantSubtotal + Rebuild(order, b).restaurantSubtotal
  {
    SelectAppend(a, b, OrderIdOf, order.id);
    ToItemsAppend(Select(a, OrderIdOf, order.id), Select(b, OrderIdOf, order.id));
    SumByAppend(Rebuild(order, a).items, Rebuild(order, b).items, ItemLineTotal);
  }

  lemma RebuildOne(order: OrderRow, row: OwnerItemRow)
    ensures Rebuild(order, [row]).items == if row.orderId == order.id then [ToItem(row)] else []
  {
    SelectOne(row, OrderIdOf, order.id);
  }

  /** `fullOrders`: every fetched order rebuilt, in fetched order. */
  function RebuildAll(orders: seq<OrderRow>, rows: seq<OwnerItemRow>): (r: seq<OwnerOrder>)
    ensures |r| == |orders|
    ensures forall i :: 0 <= i < |orders| ==> r[i] == Rebuild(orders[i], rows)
  {
    if |orders| == 0 then []
    else RebuildAll(orders[..|orders| - 1], rows) + [Rebuild(orders[|orders| - 1], rows)]
  }

  function OrderIds(orders: seq<OrderRow>): (ids: seq<string>)
    ensures |ids| == |orders|
    ensures forall i :: 0 <= i < |orders| ==> ids[i] == orders[i].id
  {
    if |orders| == 0 then [] else OrderIds(orders[..|orders| - 1]) + [orders[|orders| - 1].id]
  }

  lemma {:induction false} RebuildAllIsSumOverKeys(orders: seq<OrderRow>, rows: seq<OwnerItemRow>)
    ensures SumBy(RebuildAll(orders, rows), Subtotal) == SumOverKeys(rows, OrderIdOf, OrderIds(orders), RowLineTotal)
    decreases |orders|
  {
    if |orders| > 0 {
      var init := orders[..|orders| - 1];
      var all := RebuildAll(orders, rows);
      assert all[..|all| - 1] == RebuildAll(init, rows);
      assert OrderIds(orders)[..|orders| - 1] == OrderIds(init);
      RebuildAllIsSumOverKeys(init, rows);
      RebuildContents(orders[|orders| - 1], rows);
    }
  }

  /**
   * When the fetched orders are exactly the distinct orders the item rows
   * refer to, the restaurant subtotals add up to the sum over all its item rows.
   */
  lemma RebuiltSubtotalsAddUp(orders: seq<OrderRow>, rows: seq<OwnerItemRow>)
    requires NoDuplicates(OrderIds(orders))
    requires forall r :: r in rows ==> r.orderId in OrderIds(orders)
    ensures SumBy(RebuildAll(orders, rows), Subtotal) == SumBy(rows, RowLineTotal)
  {
    RebuildAllIsSumOverKeys(orders, rows);
    PartitionSum(rows, OrderIdOf, OrderIds(orders), RowLineTotal);
    SelectInCovering(rows, OrderIdOf, OrderIds(orders));
  }

  // ---------------------------------------------------------------------
  // Form checks
  // ---------------------------------------------------------------------

  /** The owner login / registration form; "" is an empty field. */
  datatype OwnerAuthForm = OwnerAuthForm(
    email: string, password: string, ownerName: string, restaurantName: string,
    addressStreet: string, addressBarangay: string, categoryId: string)

  const MissingCredentials := "Please fill in both email and password."
  const MissingRegistration := "Your Name, Restaurant Name, Barangay, and Category are required for registration."

  predicate RegistrationComplete(f: OwnerAuthForm)
  {
    f.ownerName != "" && f.restaurantName != "" && f.addressBarangay != "" && f.categoryId != ""
  }

  /** The two checks at the head of `handleAuth`, in order; None lets the request go ahead. */
  function ValidateOwnerAuth(isLogin: bool, f: OwnerAuthForm): (r: Option<string>)
    ensures r.None? <==> f.email != "" && f.password != "" && (isLogin || RegistrationComplete(f))
    ensures f.email == "" || f.password == "" ==> r == Some(MissingCredentials)
    ensures f.email != "" && f.password != "" && !isLogin && !RegistrationComplete(f) ==> r == Some(MissingRegistration)
  {
    if f.email == "" || f.password == "" then Some(MissingCredentials)
    else if !isLogin && !RegistrationComplete(f) then Some(MissingRegistration)
    else None
  }

  /** The street is never required, and a login looks at nothing but email and password. */
  lemma AuthFieldsRequired(isLogin: bool, f: OwnerAuthForm, g: OwnerAuthForm)
    ensures ValidateOwnerAuth(isLogin, f.(addressStreet := g.addressStreet)) == ValidateOwnerAuth(isLogin, f)
    ensures f.email == g.email && f.password == g.password ==> ValidateOwnerAuth(true, f) == ValidateOwnerAuth(true, g)
  {
  }

  /** The product modal's fields, as typed. */
  datatype ProductForm = ProductForm(name: string, price: string, stock: string, description: string, imageUrl: string)

  const MissingProductFields := "Please fill in all required fields (Name, Price, Stock)"

  /** The check at the head of `handleProductSubmit`. */
  function ValidateProduct(f: ProductForm): (r: Option<string>)
    ensures r.None? <==> f.name != "" && f.price != "" && f.stock != ""
    ensures r.Some? ==> r == Some(MissingProductFields)
  {
    if f.name == "" || f.price == "" || f.stock == "" then Some(MissingProductFields) else None
  }

  /** Description and image are optional. */
  lemma ProductOptionalFields(f: ProductForm, description: string, imageUrl: string)
    ensures ValidateProduct(f.(description := description, imageUrl := imageUrl)) == ValidateProduct(f)
  {
  }

  // ---------------------------------------------------------------------
  // The bounded restaurant insert
  // ---------------------------------------------------------------------

  const RegisterFailurePrefix := "Failed to register restaurant: "

  /**
   * The registration `while` loop: `attempt(k)` is the error the k-th insert
   * reports (None when it succeeds).  It stops at the first success and
   * gives up with the third error, so `tries` inserts were made.
   */
  method InsertRestaurantWithRetry(attempt: nat -> Option<string>) returns (tries: nat, failure: Option<string>)
    ensures 1 <= tries <= 3
    ensures forall k :: 0 <= k < tries - 1 ==> attempt(k).Some?
    ensures failure.None? <==> attempt(tries - 1).None?
    ensures failure.Some? ==> tries == 3 && failure == Some(RegisterFailurePrefix + attempt(2).value)
  {
    var retries := 3;
    var created := false;
    tries := 0;
    while retries > 0 && !created
      invariant 1 <= retries <= 3
      invariant tries == 3 - retries + (if created then 1 else 0)
      invariant forall k :: 0 <= k < tries - (if created then 1 else 0) ==> attempt(k).Some?
      invariant created ==> tries >= 1 && attempt(tries - 1).None?
      decreases retries, if created then 0 else 1
    {
      var dbError := attempt(tries);
      tries := tries + 1;
      if dbError.None? {
        created := true;
      } else if retries > 1 {
        retries := retries - 1;
      } else {
        return tries, Some(RegisterFailurePrefix + dbError.value);
      }
    }
    failure := None;
  }

  // ---------------------------------------------------------------------
  // The dashboard's state
  // ---------------------------------------------------------------------

  class Dashboard {
    var orders: seq<OwnerOrder>
    var loading: bool
    var statusFilter: string

    /** The filter starts from the saved choice, or "all" when nothing (or "") was saved. */
    constructor (savedFilter: Option<string>)
      ensures orders == [] && loading
      ensures statusFilter == if savedFilter.Some? && savedFilter.value != "" then savedFilter.value else "all"
    {
      orders := [];
      loading := true;
      statusFilter := if savedFilter.Some? && savedFilter.value != "" then savedFilter.value else "all";
    }

    /** The orders listed under the current filter. */
    function Visible(): (r: seq<OwnerOrder>)
      reads this
      ensures statusFilter == "all" ==> r == orders
      ensures forall o :: o in r <==> o in orders && (statusFilter == "all" || o.row.status == statusFilter)
    {
      FilterOrders(orders, statusFilter)
    }

    /**
     * `updateOrderStatus`: on a store error the list is unchanged; otherwise
     * only the status of the order with that id changes.
     */
    method UpdateOrderStatus(orderId: string, newStatus: string, storeError: Option<string>)
      modifies this
      ensures storeError.Some? ==> orders == old(orders)
      ensures storeError.None? ==> orders == WithStatus(old(orders), orderId, newStatus)
      ensures loading == old(loading) && statusFilter == old(statusFilter)
    {
      if storeError.None? {
        orders := WithStatus(orders, orderId, newStatus);
      }
    }

    /**
     * `loadOrders` for the restaurant `restaurantId` (None: no restaurant yet),
     * given the item query's and the order query's replies.  An error keeps
     * the previous list; no items gives an empty list without the second query.
     */
    method LoadOrders(restaurantId: Option<string>, itemsReply: Result<seq<OwnerItemRow>>,
                      ordersReply: Result<seq<OrderRow>>)
      modifies this
      ensures statusFilter == old(statusFilter)
      ensures restaurantId.None? ==> orders == old(orders) && loading == old(loading)
      ensures restaurantId.Some? ==> !loading
      ensures restaurantId.Some? && itemsReply.Err? ==> orders == old(orders)
      ensures restaurantId.Some? && itemsReply.Ok? && |itemsReply.value| == 0 ==> orders == []
      ensures restaurantId.Some? && itemsReply.Ok? && |itemsReply.value| > 0 && ordersReply.Err? ==>
        orders == old(orders)
      ensures restaurantId.Some? && itemsReply.Ok? && |itemsReply.value| > 0 && ordersReply.Ok? ==>
        orders == RebuildAll(ordersReply.value, itemsReply.value)
    {
      if restaurantId.None? {
        return;
      }
      loading := true;
      if itemsReply.Err? {
        loading := false;
        return;
      }
      var items := itemsReply.value;
      var ids := UniqueOrderIds(items);
      if |ids| == 0 {
        orders := [];
        loading := false;
        return;
      }
      if ordersReply.Err? {
        loading := false;
        return;
      }
      orders := RebuildAll(ordersReply.value, items);
      loading := false;
    }
  }
}
