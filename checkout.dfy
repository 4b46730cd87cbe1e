/**
 * The checkout step: the basket subtotal, the composed shipping address, the
 * ordered validation checks, the order header and line items written to the
 * store, and the two-step submission that deletes the header again when the
 * line items cannot be written.  Money is in integer centavos.
 */
module Checkout {
  import opened Common

  /** A basket line: the food item's id and name, its unit price and the quantity ordered. */
  datatype CartItem = CartItem(id: string, name: string, price: int, quantity: int)

  /** The delivery form; `payment` starts as "COD". */
  datatype AddressForm = AddressForm(name: string, phone: string, addressDetail: string, barangay: string, payment: string)

  /** The row written to the `orders` table. */
  datatype OrderHeader = OrderHeader(
    userId: string, total: int, shippingAddress: string,
    contactName: string, contactPhone: string, paymentMethod: string, status: string)

  /** A row written to the `order_items` table. */
  datatype ItemRow = ItemRow(orderId: string, foodItemId: string, name: string, price: int, quantity: int)

  /** The store's answer to the header insert. */
  datatype HeaderReply = Created(id: string) | Rejected(message: string) | NoRow

  /** The enriched order handed to the tracking page after a successful submission. */
  datatype TrackedOrder = TrackedOrder(id: string, header: OrderHeader, items: seq<ItemRow>, restaurantName: string)

  /** The flat delivery fee shown on the summary (50 pesos); it is never stored. */
  const DeliveryFee: int := 5000

  const AddressPrefix: string := "Iligan City, Brgy. "
  const AddressSeparator: string := " \U{2022} "
  const UnknownRestaurant: string := "Unknown Restaurant"

  const NotAuthenticated: string := "User not authenticated."
  const MissingFields: string := "Please fill in Recipient Name, Phone, Barangay, and Full Address details."
  const EmptyCart: string := "Your cart is empty."
  const FailurePrefix: string := "Failed to place order. Please try again: "
  const NoDataReturned: string := "Failed to create order, no data returned."

  const InitialForm: AddressForm := AddressForm("", "", "", "", "COD")

  function LineTotal(item: CartItem): int { item.price * item.quantity }

  function RowTotal(row: ItemRow): int { row.price * row.quantity }

  /** `total`: price times quantity, summed over the basket. */
  function Subtotal(cart: seq<CartItem>): (r: int)
    ensures |cart| == 0 ==> r == 0
  {
    SumBy(cart, LineTotal)
  }

  /** The subtotal of a basket split in two is the sum of the two subtotals. */
  lemma SubtotalAppend(a: seq<CartItem>, b: seq<CartItem>)
    ensures Subtotal(a + b) == Subtotal(a) + Subtotal(b)
    ensures Subtotal([]) == 0
  {
    SumByAppend(a, b, LineTotal);
  }

  /** The grand total on the summary: the subtotal plus the flat fee. */
  function DisplayedTotal(cart: seq<CartItem>): (r: int)
    ensures |cart| == 0 ==> r == DeliveryFee
  {
    Subtotal(cart) + DeliveryFee
  }

  /** With no negative price or quantity, the subtotal is never negative and the grand total never below the fee. */
  lemma SubtotalNonNegative(cart: seq<CartItem>)
    requires forall i :: 0 <= i < |cart| ==> cart[i].price >= 0 && cart[i].quantity >= 0
    ensures Subtotal(cart) >= 0
    ensures DisplayedTotal(cart) >= DeliveryFee
  {
    SumByNonNegative(cart, LineTotal);
  }

  /** The stored total leaves the fee out: the summary shows it plus the fee. */
  lemma StoredTotalExcludesFee(user: User, form: AddressForm, cart: seq<CartItem>, firstStatus: string)
    ensures DisplayedTotal(cart) == BuildHeader(user, form, cart, firstStatus).total + DeliveryFee
  {
  }

  /** `buildShippingAddress`: the city and barangay, a bullet, then the street detail. */
  function ShippingAddress(barangay: string, detail: string): (r: string)
    ensures |r| == |AddressPrefix| + |barangay| + |AddressSeparator| + |detail|
    ensures r[..|AddressPrefix|] == AddressPrefix
    ensures r[|AddressPrefix|..|AddressPrefix| + |barangay|] == barangay
    ensures r[|AddressPrefix| + |barangay|..|AddressPrefix| + |barangay| + |AddressSeparator|] == AddressSeparator
    ensures r[|r| - |detail|..] == detail
  {
    AddressPrefix + barangay + AddressSeparator + detail
  }

  /** Given the barangay's length, the address determines the barangay and the street detail. */
  lemma ShippingAddressInjective(b1: string, d1: string, b2: string, d2: string)
    requires |b1| == |b2|
    requires ShippingAddress(b1, d1) == ShippingAddress(b2, d2)
    ensures b1 == b2 && d1 == d2
  {
    var r := ShippingAddress(b1, d1);
    assert |d1| == |d2|;
    assert b1 == r[|AddressPrefix|..|AddressPrefix| + |b1|] == b2;
    assert d1 == r[|r| - |d1|..] == d2;
  }

  /** The four fields the form demands; the payment method is not checked. */
  predicate FormComplete(form: AddressForm)
  {
    form.name != "" && form.phone != "" && form.barangay != "" && form.addressDetail != ""
  }

  /** The checks of `handlePlaceOrder`, in their order: the user, the form, the basket. */
  function ValidateOrder(user: Option<User>, form: AddressForm, cart: seq<CartItem>): (r: Option<string>)
    ensures r.None? <==> user.Some? && FormComplete(form) && |cart| > 0
    ensures user.None? ==> r == Some(NotAuthenticated)
    ensures user.Some? && !FormComplete(form) ==> r == Some(MissingFields)
    ensures user.Some? && FormComplete(form) && |cart| == 0 ==> r == Some(EmptyCart)
  {
    if user.None? then Some(NotAuthenticated)
    else if !FormComplete(form) then Some(MissingFields)
    else if |cart| == 0 then Some(EmptyCart)
    else None
  }

  /** `orderData`: the header stores the item subtotal (the fee excluded) and the given first status. */
  function BuildHeader(user: User, form: AddressForm, cart: seq<CartItem>, firstStatus: string): (h: OrderHeader)
    ensures h.total == Subtotal(cart)
    ensures h.status == firstStatus && h.userId == user.id
    ensures h.shippingAddress == ShippingAddress(form.barangay, form.addressDetail)
    ensures h.contactName == form.name && h.contactPhone == form.phone && h.paymentMethod == form.payment
  {
    OrderHeader(user.id, Subtotal(cart), ShippingAddress(form.barangay, form.addressDetail),
                form.name, form.phone, form.payment, firstStatus)
  }

  function RowOf(orderId: string, item: CartItem): ItemRow
  {
    ItemRow(orderId, item.id, item.name, item.price, item.quantity)
  }

  /** `itemData`: one row per basket line, in basket order, tagged with the new order's id. */
  function ItemRows(orderId: string, cart: seq<CartItem>): (rows: seq<ItemRow>)
    ensures |rows| == |cart|
    ensures forall i :: 0 <= i < |cart| ==>
      rows[i].orderId == orderId && rows[i].foodItemId == cart[i].id && rows[i].name == cart[i].name
      && rows[i].price == cart[i].price && rows[i].quantity == cart[i].quantity
  {
    if |cart| == 0 then []
    else ItemRows(orderId, cart[..|cart| - 1]) + [RowOf(orderId, cart[|cart| - 1])]
  }

  /** The stored line items add up to the stored header total. */
  lemma {:induction false} ItemRowsTotal(orderId: string, cart: seq<CartItem>)
    ensures SumBy(ItemRows(orderId, cart), RowTotal) == Subtotal(cart)
    decreases |cart|
  {
    if |cart| > 0 {
      var rows := ItemRows(orderId, cart);
      ItemRowsTotal(orderId, cart[..|cart| - 1]);
      assert rows[..|rows| - 1] == ItemRows(orderId, cart[..|cart| - 1]);
    }
  }

  /**
   * The name attached for the tracking page: the restaurant's name only when the
   * first item's food row has a restaurant id and that restaurant row is found.
   */
  function TrackingRestaurantName(foodRestaurantId: Option<string>, restaurantRow: Option<string>): (r: string)
    ensures r != UnknownRestaurant ==> foodRestaurantId.Some? && foodRestaurantId.value != "" && restaurantRow.Some?
    ensures foodRestaurantId.Some? && foodRestaurantId.value != "" && restaurantRow.Some? ==> r == restaurantRow.value
  {
    if foodRestaurantId.Some? && foodRestaurantId.value != "" && restaurantRow.Some?
    then restaurantRow.value
    else UnknownRestaurant
  }

  /** The `orders` and `order_items` tables, as far as checkout touches them. */
  class OrderStore {
    var orders: map<string, OrderHeader>
    var orderItems: seq<ItemRow>

    constructor ()
      ensures orders == map[] && orderItems == []
    {
      orders := map[];
      orderItems := [];
    }

    /** `insert(orderData).select().single()`; the store assigns a fresh id. */
    method InsertOrder(header: OrderHeader, reply: HeaderReply)
      requires reply.Created? ==> reply.id !in orders
      modifies this
      ensures orders == if reply.Created? then old(orders)[reply.id := header] else old(orders)
      ensures orderItems == old(orderItems)
    {
      if reply.Created? {
        orders := orders[reply.id := header];
      }
    }

    /** `insert(itemData)` on `order_items`; `error` is the store's error, if it reports one. */
    method InsertItems(rows: seq<ItemRow>, error: Option<string>)
      modifies this
      ensures orderItems == if error.None? then old(orderItems) + rows else old(orderItems)
      ensures orders == old(orders)
    {
      if error.None? {
        orderItems := orderItems + rows;
      }
    }

    /** `delete().eq('id', id)` on `orders`; its outcome is not inspected by the caller. */
    method DeleteOrder(id: string, succeeds: bool)
      modifies this
      ensures orders == if succeeds then old(orders) - {id} else old(orders)
      ensures orderItems == old(orderItems)
    {
      if succeeds {
        orders := orders - {id};
      }
    }
  }

  /** The checkout page's state, with the basket and the page owned by the app shell. */
  class CheckoutPage {
    var form: AddressForm
    var barangays: seq<string>
    var loading: bool
    var error: string
    var cart: seq<CartItem>
    var page: string

    constructor (cart0: seq<CartItem>, page0: string)
      ensures form == InitialForm && barangays == [] && !loading && error == ""
      ensures cart == cart0 && page == page0
    {
      form := InitialForm;
      barangays := [];
      loading := false;
      error := "";
      cart := cart0;
      page := page0;
    }

    /** Whether "Place Order Now" is enabled. */
    predicate CanPlaceOrder()
      reads this
      ensures CanPlaceOrder() ==> forall u :: ValidateOrder(u, form, cart) != Some(EmptyCart)
      ensures CanPlaceOrder() ==> |barangays| > 0
    {
      !loading && |barangays| > 0 && |cart| > 0
    }

    /** `fetchBarangays`: the active zone names fill the list, and the first one is preselected. */
    method LoadBarangays(reply: Option<seq<string>>)
      modifies this
      ensures reply.None? ==> barangays == old(barangays) && form == old(form)
      ensures reply.Some? ==> barangays == reply.value
      ensures reply.Some? && |reply.value| > 0 ==> form == old(form).(barangay := reply.value[0])
      ensures reply.Some? && |reply.value| == 0 ==> form == old(form)
      ensures loading == old(loading) && error == old(error) && cart == old(cart) && page == old(page)
    {
      if reply.Some? {
        barangays := reply.value;
        if |reply.value| > 0 {
          form := form.(barangay := reply.value[0]);
        }
      }
    }

    /**
     * `handlePlaceOrder`.  The store's answers are inputs: the header insert's
     * reply, the item insert's error, whether the compensating delete succeeds,
     * and the two lookups for the restaurant name.  Returns the enriched order
     * handed to the tracking page, if one was built.
     */
    method PlaceOrder(store: OrderStore, user: Option<User>, statuses: seq<string>,
                      headerReply: HeaderReply, itemsError: Option<string>, deleteSucceeds: bool,
                      foodRestaurantId: Option<string>, restaurantRow: Option<string>)
      returns (handedOver: Option<TrackedOrder>)
      requires |statuses| > 0
      requires headerReply.Created? ==> headerReply.id !in store.orders
      modifies this, store
      ensures form == old(form) && barangays == old(barangays)
      // a failed check: its message, and nothing else happens
      ensures ValidateOrder(user, old(form), old(cart)).Some? ==>
        && error == ValidateOrder(user, old(form), old(cart)).value
        && loading == old(loading) && cart == old(cart) && page == old(page) && handedOver.None?
        && store.orders == old(store.orders) && store.orderItems == old(store.orderItems)
      // past the checks, loading always ends switched off
      ensures ValidateOrder(user, old(form), old(cart)).None? ==> !loading
      // the header insert fails: nothing was written
      ensures ValidateOrder(user, old(form), old(cart)).None? && !headerReply.Created? ==>
        && error == FailurePrefix + (if headerReply.Rejected? then headerReply.message else NoDataReturned)
        && cart == old(cart) && page == old(page) && handedOver.None?
        && store.orders == old(store.orders) && store.orderItems == old(store.orderItems)
      // the item insert fails: the header is deleted again and the item error is reported
      ensures ValidateOrder(user, old(form), old(cart)).None? && headerReply.Created? && itemsError.Some? ==>
        && error == FailurePrefix + itemsError.value
        && cart == old(cart) && page == old(page) && handedOver.None?
        && store.orderItems == old(store.orderItems)
        && (deleteSucceeds ==> store.orders == old(store.orders))
        && (!deleteSucceeds ==> store.orders == old(store.orders)[headerReply.id :=
              BuildHeader(user.value, old(form), old(cart), statuses[0])])
      // both inserts succeed: the basket is emptied and the tracking page is requested
      ensures ValidateOrder(user, old(form), old(cart)).None? && headerReply.Created? && itemsError.None? ==>
        var header := BuildHeader(user.value, old(form), old(cart), statuses[0]);
        var rows := ItemRows(headerReply.id, old(cart));
        && store.orders == old(store.orders)[headerReply.id := header]
        && store.orderItems == old(store.orderItems) + rows
        && cart == [] && page == "tracking" && error == old(error)
        && handedOver == Some(TrackedOrder(headerReply.id, header, rows,
                                           TrackingRestaurantName(foodRestaurantId, restaurantRow)))
    {
      handedOver := None;
      var check := ValidateOrder(user, form, cart);
      if check.Some? {
        error := check.value;
        return;
      }
      loading := true;
      var header := BuildHeader(user.value, form, cart, statuses[0]);
      store.InsertOrder(header, headerReply);
      if headerReply.Rejected? {
        error := FailurePrefix + headerReply.message;
        loading := false;
        return;
      }
      if headerReply.NoRow? {
        error := FailurePrefix + NoDataReturned;
        loading := false;
        return;
      }
      var newOrderId := headerReply.id;
      var rows := ItemRows(newOrderId, cart);
      store.InsertItems(rows, itemsError);
      if itemsError.Some? {
        store.DeleteOrder(newOrderId, deleteSucceeds);
        error := FailurePrefix + itemsError.value;
        loading := false;
        return;
      }
      var restaurantName := TrackingRestaurantName(foodRestaurantId, restaurantRow);
      handedOver := Some(TrackedOrder(newOrderId, header, rows, restaurantName));
      cart := [];
      page := "tracking";
      loading := false;
    }
  }
}
