/**
 * The customer's order history: every fetched order is split into one
 * display segment per restaurant, grouping its items on the restaurant's name
 * and skipping items that carry no restaurant name.  Each segment keeps the
 * item subtotal of its restaurant, with no delivery fee added.
 */
module OrderHistory {
  import opened Common

  /** `food_items.restaurants` of an item: the restaurant's name. */
  datatype RestaurantRef = RestaurantRef(name: string)

  /** `food_items` of an item: its restaurant id and, when the join found one, its restaurant. */
  datatype FoodItemRef = FoodItemRef(restaurantId: string, restaurant: Option<RestaurantRef>)

  datatype HistoryItem = HistoryItem(
    foodItemId: string, name: string, price: int, quantity: int, foodItem: Option<FoodItemRef>)

  /** A fetched order with its nested items. */
  datatype HistoryOrder = HistoryOrder(
    id: string, status: string, createdAt: string, shippingAddress: string,
    contactName: string, contactPhone: string, total: int, items: seq<HistoryItem>)

  /** One entry of the grouping dictionary. */
  datatype Group = Group(restaurantName: string, restaurantId: string, items: seq<HistoryItem>, subtotal: int)

  /** A display segment: the order's fields, this restaurant's items, and their subtotal as `total`. */
  datatype Segment = Segment(
    id: string, status: string, createdAt: string, shippingAddress: string,
    contactName: string, contactPhone: string,
    displayId: string, restaurantName: string, items: seq<HistoryItem>, total: int)

  function LineTotal(item: HistoryItem): int { item.price * item.quantity }

  function One(item: HistoryItem): int { 1 }

  function GroupSubtotal(g: Group): int { g.subtotal }

  function GroupSize(g: Group): int { |g.items| }

  /** `item.food_items?.restaurants?.name`; "" when a link is missing (a falsy key). */
  function RestaurantKey(item: HistoryItem): (r: string)
    ensures r != "" ==> item.foodItem.Some? && item.foodItem.value.restaurant.Some?
    ensures item.foodItem.Some? && item.foodItem.value.restaurant.Some? ==> r == item.foodItem.value.restaurant.value.name
  {
    match item.foodItem
    case None => ""
    case Some(f) => if f.restaurant.Some? then f.restaurant.value.name else ""
  }

  /** `item.food_items.restaurant_id`. */
  function RestaurantIdOf(item: HistoryItem): string
  {
    if item.foodItem.Some? then item.foodItem.value.restaurantId else ""
  }

  /** The items that take part in the grouping: those with a restaurant name. */
  function Located(items: seq<HistoryItem>): (r: seq<HistoryItem>)
    ensures |r| <= |items|
  {
    if |items| == 0 then []
    else
      var rest := Located(items[..|items| - 1]);
      if RestaurantKey(items[|items| - 1]) != "" then rest + [items[|items| - 1]] else rest
  }

  /** The located items are exactly the items with a restaurant name. */
  lemma {:induction false} LocatedSpec(items: seq<HistoryItem>)
    ensures forall x :: x in Located(items) <==> x in items && RestaurantKey(x) != ""
    decreases |items|
  {
    if |items| > 0 {
      var init := items[..|items| - 1];
      var last := items[|items| - 1];
      LocatedSpec(init);
      assert forall x :: x in items ==> x in init || x == last;
      assert forall x :: x in init ==> x in items;
    }
  }

  /** Locating keeps the items' order and multiplicity: it distributes over concatenation. */
  lemma {:induction false} LocatedAppend(a: seq<HistoryItem>, b: seq<HistoryItem>)
    ensures Located(a + b) == Located(a) + Located(b)
    decreases |b|
  {
    if |b| > 0 {
      var b' := b[..|b| - 1];
      assert (a + b)[..|a + b| - 1] == a + b';
      assert (a + b)[|a + b| - 1] == b[|b| - 1];
      LocatedAppend(a, b');
    } else {
      assert a + b == a;
    }
  }

  /** The dictionary's keys in insertion order: each restaurant name, at its first appearance. */
  function Keys(items: seq<HistoryItem>): (r: seq<string>)
    ensures |r| <= |Located(items)|
  {
    if |items| == 0 then []
    else
      var ks := Keys(items[..|items| - 1]);
      var k := RestaurantKey(items[|items| - 1]);
      if k == "" || k in ks then ks else ks + [k]
  }

  /**
   * The key list names each restaurant once, names only restaurants that
   * some item is filed under, and names every restaurant of a located item.
   */
  lemma {:induction false} KeysSpec(items: seq<HistoryItem>)
    ensures NoDuplicates(Keys(items))
    ensures forall k :: k in Keys(items) ==> k != "" && exists x :: x in items && RestaurantKey(x) == k
    ensures forall x :: x in items && RestaurantKey(x) != "" ==> RestaurantKey(x) in Keys(items)
    decreases |items|
  {
    if |items| > 0 {
      var init := items[..|items| - 1];
      var last := items[|items| - 1];
      KeysSpec(init);
      assert forall x :: x in items ==> x in init || x == last;
      assert forall x :: x in init ==> x in items;
    }
  }

  /** The items filed under restaurant name `k`. */
  function WithKey(items: seq<HistoryItem>, k: string): seq<HistoryItem>
  {
    Select(items, RestaurantKey, k)
  }

  /** The dictionary entry for name `k`: the restaurant id comes from the first item filed under it. */
  function GroupFor(items: seq<HistoryItem>, k: string): Group
  {
    var ws := WithKey(items, k);
    Group(k, if |ws| == 0 then "" else RestaurantIdOf(ws[0]), ws, SumBy(ws, LineTotal))
  }

  function GroupsFor(items: seq<HistoryItem>, ks: seq<string>): (gs: seq<Group>)
    ensures |gs| == |ks|
    ensures forall i :: 0 <= i < |ks| ==> gs[i] == GroupFor(items, ks[i])
  {
    if |ks| == 0 then []
    else GroupsFor(items, ks[..|ks| - 1]) + [GroupFor(items, ks[|ks| - 1])]
  }

  /** `Object.values(restaurantGroups)`: the entries in key insertion order. */
  function Groups(items: seq<HistoryItem>): (r: seq<Group>)
    ensures |r| == |Keys(items)| <= |Located(items)|
  {
    GroupsFor(items, Keys(items))
  }

  /** Filing one more item: how the key list grows. */
  lemma KeysSnoc(prefix: seq<HistoryItem>, item: HistoryItem)
    ensures Keys(prefix + [item]) ==
      var k := RestaurantKey(item);
      if k == "" || k in Keys(prefix) then Keys(prefix) else Keys(prefix) + [k]
  {
    assert (prefix + [item])[..|prefix|] == prefix;
  }

  lemma WithKeySnoc(prefix: seq<HistoryItem>, item: HistoryItem, k: string)
    ensures WithKey(prefix + [item], k) == if RestaurantKey(item) == k then WithKey(prefix, k) + [item] else WithKey(prefix, k)
  {
    var s := prefix + [item];
    assert s[..|s| - 1] == prefix;
  }

  /** Before its first item is filed, a name has no items. */
  lemma WithUnseenKey(prefix: seq<HistoryItem>, k: string)
    requires k != "" && k !in Keys(prefix)
    ensures WithKey(prefix, k) == []
  {
    KeysSpec(prefix);
  }

  /** After its first item is filed, a name has items. */
  lemma WithSeenKey(prefix: seq<HistoryItem>, k: string)
    requires k in Keys(prefix)
    ensures WithKey(prefix, k) != []
  {
    KeysSpec(prefix);
    var x :| x in prefix && RestaurantKey(x) == k;
    assert x in WithKey(prefix, k);
  }

  /** The entry the `reduce` creates for a restaurant name it has not met yet. */
  function NewEntry(item: HistoryItem): Group
  {
    Group(RestaurantKey(item), RestaurantIdOf(item), [], 0)
  }

  /** `acc[name].items.push(item); acc[name].subtotal += price * quantity`. */
  function Push(g: Group, item: HistoryItem): Group
  {
    g.(items := g.items + [item], subtotal := g.subtotal + LineTotal(item))
  }

  /** Filing an item leaves the entries of the other names as they were. */
  lemma GroupForOther(prefix: seq<HistoryItem>, item: HistoryItem, k: string)
    requires RestaurantKey(item) != k
    ensures GroupFor(prefix + [item], k) == GroupFor(prefix, k)
  {
    WithKeySnoc(prefix, item, k);
  }

  /** Filing the first item of name `k` creates its entry holding just that item. */
  lemma GroupForFirst(prefix: seq<HistoryItem>, item: HistoryItem)
    requires RestaurantKey(item) != "" && RestaurantKey(item) !in Keys(prefix)
    ensures GroupFor(prefix + [item], RestaurantKey(item))
         == Group(RestaurantKey(item), RestaurantIdOf(item), [item], LineTotal(item))
  {
    var k := RestaurantKey(item);
    WithKeySnoc(prefix, item, k);
    WithUnseenKey(prefix, k);
    assert WithKey(prefix + [item], k) == [item];
    assert [item][..0] == [];
    assert SumBy([item], LineTotal) == SumBy([item][..0], LineTotal) + LineTotal(item);
  }

  /** Filing a further item of name `k` appends it to the entry and adds its line total. */
  lemma GroupForAgain(prefix: seq<HistoryItem>, item: HistoryItem)
    requires RestaurantKey(item) in Keys(prefix)
    ensures GroupFor(prefix + [item], RestaurantKey(item)) == Push(GroupFor(prefix, RestaurantKey(item)), item)
  {
    var k := RestaurantKey(item);
    WithKeySnoc(prefix, item, k);
    var ws := WithKey(prefix, k);
    assert (ws + [item])[..|ws|] == ws;
    WithSeenKey(prefix, k);
  }

  /** Every entry of `acc` is the group its name has among `prefix`. */
  ghost predicate EntriesMatch(acc: map<string, Group>, prefix: seq<HistoryItem>)
  {
    forall k :: k in acc ==> acc[k] == GroupFor(prefix, k)
  }

  /** The dictionary `acc` with key list `keys` is the grouping of `prefix`. */
  ghost predicate Filed(acc: map<string, Group>, keys: seq<string>, prefix: seq<HistoryItem>)
  {
    && keys == Keys(prefix)
    && (forall k :: k in acc <==> k in keys)
    && EntriesMatch(acc, prefix)
  }

  /** Filing an item without a restaurant name changes nothing. */
  lemma FiledSkip(acc: map<string, Group>, keys: seq<string>, prefix: seq<HistoryItem>, item: HistoryItem)
    requires Filed(acc, keys, prefix) && RestaurantKey(item) == ""
    ensures Filed(acc, keys, prefix + [item])
  {
    KeysSnoc(prefix, item);
    forall kk | kk in acc ensures acc[kk] == GroupFor(prefix + [item], kk) {
      assert kk != "" by {
        assert kk in Keys(prefix);
        KeysSpec(prefix);
      }
      GroupForOther(prefix, item, kk);
    }
  }

  /** Filing an item of name `k` leaves every other entry matching. */
  lemma OthersMatch(acc: map<string, Group>, prefix: seq<HistoryItem>, item: HistoryItem, g: Group)
    requires EntriesMatch(acc, prefix)
    requires g == GroupFor(prefix + [item], RestaurantKey(item))
    ensures EntriesMatch(acc[RestaurantKey(item) := g], prefix + [item])
  {
    var k := RestaurantKey(item);
    forall kk | kk in acc && kk != k ensures acc[kk] == GroupFor(prefix + [item], kk) {
      GroupForOther(prefix, item, kk);
    }
  }

  /** Filing the first item of a restaurant adds its entry, holding just that item, and its key. */
  lemma FiledNew(acc: map<string, Group>, keys: seq<string>, prefix: seq<HistoryItem>, item: HistoryItem)
    requires Filed(acc, keys, prefix)
    requires RestaurantKey(item) != "" && RestaurantKey(item) !in acc
    ensures var k := RestaurantKey(item);
      Filed(acc[k := NewEntry(item)][k := Push(NewEntry(item), item)], keys + [k], prefix + [item])
  {
    var k := RestaurantKey(item);
    var g := Push(NewEntry(item), item);
    assert acc[k := NewEntry(item)][k := g] == acc[k := g];
    assert keys + [k] == Keys(prefix + [item]) by {
      KeysSnoc(prefix, item);
    }
    assert g == GroupFor(prefix + [item], k) by {
      assert [] + [item] == [item];
      GroupForFirst(prefix, item);
    }
    assert EntriesMatch(acc, prefix);
    OthersMatch(acc, prefix, item, g);
  }

  /** Filing a further item of a restaurant appends it to that entry and adds its line total. */
  lemma FiledPush(acc: map<string, Group>, keys: seq<string>, prefix: seq<HistoryItem>, item: HistoryItem)
    requires Filed(acc, keys, prefix)
    requires RestaurantKey(item) in acc
    ensures var k := RestaurantKey(item);
      Filed(acc[k := Push(acc[k], item)], keys, prefix + [item])
  {
    var k := RestaurantKey(item);
    var g := Push(acc[k], item);
    assert keys == Keys(prefix + [item]) by {
      assert k in Keys(prefix);
      KeysSnoc(prefix, item);
    }
    assert g == GroupFor(prefix + [item], k) by {
      GroupForAgain(prefix, item);
    }
    assert EntriesMatch(acc, prefix);
    OthersMatch(acc, prefix, item, g);
  }

  /**
   * The grouping `reduce` of `fetchOrders`: a dictionary keyed by restaurant
   * name, updated in place item by item, then read out in key order.
   */
  method GroupByRestaurant(items: seq<HistoryItem>) returns (groups: seq<Group>)
    ensures groups == Groups(items)
  {
    var acc, keys := FileItems(items);
    groups := seq(|keys|, j requires 0 <= j < |keys| => acc[keys[j]]);
    forall j | 0 <= j < |keys| ensures groups[j] == Groups(items)[j] {
      assert keys[j] in acc;
    }
  }

  /** The `reduce` itself: the dictionary, and the order in which its keys were inserted. */
  method FileItems(items: seq<HistoryItem>) returns (acc: map<string, Group>, keys: seq<string>)
    ensures Filed(acc, keys, items)
  {
    keys := [];
    acc := map[];
    var i := 0;
    ghost var seen: seq<HistoryItem> := [];
    while i < |items|
      invariant 0 <= i <= |items|
      invariant seen == items[..i]
      invariant Filed(acc, keys, seen)
    {
      var item := items[i];
      var k := RestaurantKey(item);
      ghost var acc0, keys0, prefix := acc, keys, seen;
      if k == "" {
        FiledSkip(acc0, keys0, prefix, item);
      } else {
        if k !in acc {
          FiledNew(acc0, keys0, prefix, item);
          acc := acc[k := NewEntry(item)];
          keys := keys + [k];
        } else {
          FiledPush(acc0, keys0, prefix, item);
        }
        acc := acc[k := Push(acc[k], item)];
      }
      assert items[..i + 1] == prefix + [item];
      seen := prefix + [item];
      i := i + 1;
    }
    assert items[..i] == items;
  }

  /** The display segment for one group of one order. */
  function SegmentOf(order: HistoryOrder, g: Group): Segment
  {
    Segment(order.id, order.status, order.createdAt, order.shippingAddress,
            order.contactName, order.contactPhone,
            order.id + "-" + g.restaurantId, g.restaurantName, g.items, g.subtotal)
  }

  function SegmentsOf(order: HistoryOrder, gs: seq<Group>): (r: seq<Segment>)
    ensures |r| == |gs|
    ensures forall i :: 0 <= i < |gs| ==> r[i] == SegmentOf(order, gs[i])
  {
    if |gs| == 0 then [] else SegmentsOf(order, gs[..|gs| - 1]) + [SegmentOf(order, gs[|gs| - 1])]
  }

  /** The `flatMap` of `fetchOrders`: every order's segments, orders kept in fetched order. */
  function DisplayOrders(orders: seq<HistoryOrder>): seq<Segment>
  {
    if |orders| == 0 then []
    else
      var last := orders[|orders| - 1];
      DisplayOrders(orders[..|orders| - 1]) + SegmentsOf(last, Groups(last.items))
  }

  function SegmentCount(order: HistoryOrder): int { |Keys(order.items)| }

  /** What every displayed segment satisfies. */
  predicate WellFormed(s: Segment)
  {
    && |s.items| > 0
    && s.restaurantName != ""
    && (forall x :: x in s.items ==> RestaurantKey(x) == s.restaurantName)
    && s.total == SumBy(s.items, LineTotal)
    && s.displayId == s.id + "-" + RestaurantIdOf(s.items[0])
  }

  // ---------------------------------------------------------------------
  // Properties of the grouping
  // ---------------------------------------------------------------------

  /**
   * The segments partition the located items: an item with a restaurant name
   * lies in exactly the segment keyed by that name, and in no other; an item
   * without one lies in none.
   */
  lemma GroupsPartition(items: seq<HistoryItem>, x: HistoryItem, i: int)
    requires x in items
    requires 0 <= i < |Groups(items)|
    ensures x in Groups(items)[i].items <==> RestaurantKey(x) == Groups(items)[i].restaurantName
    ensures Groups(items)[i].restaurantName != ""
    ensures RestaurantKey(x) != "" ==> exists j :: 0 <= j < |Groups(items)| && Groups(items)[j].restaurantName == RestaurantKey(x)
    ensures forall j :: 0 <= j < |Groups(items)| && j != i ==> Groups(items)[j].restaurantName != Groups(items)[i].restaurantName
  {
    var ks := Keys(items);
    KeysSpec(items);
    assert ks[i] in ks;
    assert RestaurantKey(x) != "" ==> ks[IndexOf(ks, RestaurantKey(x))] == RestaurantKey(x);
  }

  /** Each group is non-empty and its subtotal is the sum of price times quantity of its items. */
  lemma GroupsWellFormed(items: seq<HistoryItem>)
    ensures forall g :: g in Groups(items) ==>
      |g.items| > 0 && g.restaurantName != ""
      && (forall x :: x in g.items ==> RestaurantKey(x) == g.restaurantName)
      && g.subtotal == SumBy(g.items, LineTotal)
      && g.restaurantId == RestaurantIdOf(g.items[0])
  {
    var ks := Keys(items);
    KeysSpec(items);
    forall g | g in Groups(items)
      ensures |g.items| > 0 && g.restaurantName != ""
      ensures forall x :: x in g.items ==> RestaurantKey(x) == g.restaurantName
      ensures g.subtotal == SumBy(g.items, LineTotal)
      ensures g.restaurantId == RestaurantIdOf(g.items[0])
    {
      var i :| 0 <= i < |ks| && g == Groups(items)[i];
      assert ks[i] in ks;
      var x :| x in items && RestaurantKey(x) == ks[i];
      assert x in g.items;
    }
  }

  lemma {:induction false} GroupsSubtotalIsSumOverKeys(items: seq<HistoryItem>, ks: seq<string>)
    ensures SumBy(GroupsFor(items, ks), GroupSubtotal) == SumOverKeys(items, RestaurantKey, ks, LineTotal)
    decreases |ks|
  {
    if |ks| > 0 {
      var gs := GroupsFor(items, ks);
      assert gs[..|gs| - 1] == GroupsFor(items, ks[..|ks| - 1]);
      GroupsSubtotalIsSumOverKeys(items, ks[..|ks| - 1]);
    }
  }

  lemma {:induction false} GroupsSizeIsSumOverKeys(items: seq<HistoryItem>, ks: seq<string>)
    ensures SumBy(GroupsFor(items, ks), GroupSize) == SumOverKeys(items, RestaurantKey, ks, One)
    decreases |ks|
  {
    if |ks| > 0 {
      var gs := GroupsFor(items, ks);
      assert gs[..|gs| - 1] == GroupsFor(items, ks[..|ks| - 1]);
      GroupsSizeIsSumOverKeys(items, ks[..|ks| - 1]);
      CountIsLength(WithKey(items, ks[|ks| - 1]));
    }
  }

  lemma {:induction false} CountIsLength(s: seq<HistoryItem>)
    ensures SumBy(s, One) == |s|
    decreases |s|
  {
    if |s| > 0 {
      CountIsLength(s[..|s| - 1]);
    }
  }

  /** Selecting the items whose name is one of the keys selects exactly the located items. */
  lemma {:induction false} KeysSelectLocated(items: seq<HistoryItem>)
    ensures SelectIn(items, RestaurantKey, Keys(items)) == Located(items)
    decreases |items|
  {
    if |items| > 0 {
      var init := items[..|items| - 1];
      var last := items[|items| - 1];
      assert forall y :: y in init ==> y in items;
      KeysSpec(items);
      KeysSpec(init);
      SelectInSameMembership(init, RestaurantKey, Keys(items), Keys(init));
      KeysSelectLocated(init);
    }
  }

  /** The segments' subtotals add up to the subtotal of the items that have a restaurant. */
  lemma SegmentSubtotalsAddUp(items: seq<HistoryItem>)
    ensures SumBy(Groups(items), GroupSubtotal) == SumBy(Located(items), LineTotal)
  {
    KeysSpec(items);
    GroupsSubtotalIsSumOverKeys(items, Keys(items));
    PartitionSum(items, RestaurantKey, Keys(items), LineTotal);
    KeysSelectLocated(items);
  }

  /** The segments hold, between them, as many items as there are located items. */
  lemma SegmentSizesAddUp(items: seq<HistoryItem>)
    ensures SumBy(Groups(items), GroupSize) == |Located(items)|
  {
    KeysSpec(items);
    GroupsSizeIsSumOverKeys(items, Keys(items));
    PartitionSum(items, RestaurantKey, Keys(items), One);
    KeysSelectLocated(items);
    CountIsLength(Located(items));
  }

  /** An order whose items all lack a restaurant name yields no group, and conversely. */
  lemma {:induction false} NoGroupsIffNoLocated(items: seq<HistoryItem>)
    ensures Groups(items) == [] <==> Located(items) == []
    decreases |items|
  {
    if |items| > 0 {
      var init := items[..|items| - 1];
      var last := items[|items| - 1];
      NoGroupsIffNoLocated(init);
      assert last in items;
    }
  }

  // ---------------------------------------------------------------------
  // Properties of the segment list
  // ---------------------------------------------------------------------

  /** Every displayed segment is well formed: non-empty, one restaurant, its subtotal, its display id. */
  lemma {:induction false} DisplayOrdersWellFormed(orders: seq<HistoryOrder>)
    ensures forall s :: s in DisplayOrders(orders) ==> WellFormed(s)
    decreases |orders|
  {
    if |orders| > 0 {
      var last := orders[|orders| - 1];
      DisplayOrdersWellFormed(orders[..|orders| - 1]);
      GroupsWellFormed(last.items);
      var segs := SegmentsOf(last, Groups(last.items));
      forall s | s in segs ensures WellFormed(s) {
        var i :| 0 <= i < |segs| && s == segs[i];
        assert Groups(last.items)[i] in Groups(last.items);
      }
    }
  }

  /** The segment count is the sum, over the orders, of their distinct restaurant names. */
  lemma {:induction false} DisplayOrdersCount(orders: seq<HistoryOrder>)
    ensures |DisplayOrders(orders)| == SumBy(orders, SegmentCount)
    decreases |orders|
  {
    if |orders| > 0 {
      DisplayOrdersCount(orders[..|orders| - 1]);
    }
  }

  /** An order contributes no segment exactly when none of its items has a restaurant name. */
  lemma OrderWithoutRestaurantsContributesNothing(orders: seq<HistoryOrder>, o: HistoryOrder)
    ensures DisplayOrders(orders + [o]) == DisplayOrders(orders) + SegmentsOf(o, Groups(o.items))
    ensures DisplayOrders(orders + [o]) == DisplayOrders(orders) <==> Located(o.items) == []
  {
    assert (orders + [o])[..|orders|] == orders;
    NoGroupsIffNoLocated(o.items);
  }

  /** The history page's state. */
  class OrderHistoryPage {
    var segments: seq<Segment>
    var loading: bool

    constructor ()
      ensures segments == [] && loading
    {
      segments := [];
      loading := true;
    }

    /**
     * `fetchOrders`: without a user nothing is fetched; a query error empties
     * the list; otherwise the list becomes the segments of the fetched orders.
     */
    method FetchOrders(signedIn: bool, reply: Result<seq<HistoryOrder>>)
      modifies this
      ensures !loading
      ensures !signedIn ==> segments == old(segments)
      ensures signedIn && reply.Err? ==> segments == []
      ensures signedIn && reply.Ok? ==> segments == DisplayOrders(reply.value)
    {
      if !signedIn {
        loading := false;
        return;
      }
      loading := true;
      if reply.Err? {
        segments := [];
      } else {
        var orders := reply.value;
        var shown: seq<Segment> := [];
        var i := 0;
        while i < |orders|
          invariant 0 <= i <= |orders|
          invariant shown == DisplayOrders(orders[..i])
        {
          var groups := GroupByRestaurant(orders[i].items);
          assert orders[..i + 1][..i] == orders[..i];
          shown := shown + SegmentsOf(orders[i], groups);
          i := i + 1;
        }
        assert orders[..i] == orders;
        segments := shown;
      }
      loading := false;
    }
  }
}
