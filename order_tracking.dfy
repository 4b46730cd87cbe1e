/**
 * The customer's tracking view of one order.  Its rules compare positions
 * in an ordered status list (`ORDER_STATUSES`), which this view imports from
 * elsewhere; the list is therefore a parameter `statuses` here, and every
 * rule is stated for any list, with `indexOf` returning -1 for an absent
 * status exactly as JavaScript does.
 */
module OrderTracking {
  import opened Common
  import OrderHistory

  function Position(statuses: seq<string>, status: string): int { IndexOf(statuses, status) }

  // ---------------------------------------------------------------------
  // Status rules
  // ---------------------------------------------------------------------

  predicate IsCompleted(status: string) { status == "Completed" }

  /** `isReceiving`: the status sits where "To Receive" does. */
  predicate IsReceiving(statuses: seq<string>, status: string)
  {
    Position(statuses, status) == Position(statuses, "To Receive")
  }

  /** `isCancellable`: the status sits no later than "To Ship". */
  predicate IsCancellable(statuses: seq<string>, status: string)
  {
    Position(statuses, status) <= Position(statuses, "To Ship")
  }

  /** `MockMap`'s `isShipped`: the status sits no earlier than "Shipped". */
  predicate IsShipped(statuses: seq<string>, status: string)
  {
    Position(statuses, status) >= Position(statuses, "Shipped")
  }

  /** The condition under which the demo "Next Status" button is rendered. */
  predicate ShowsDemoNext(statuses: seq<string>, status: string)
  {
    !IsCompleted(status) && !IsCancellable(statuses, status) && Position(statuses, status) < |statuses| - 2
  }

  /**
   * "CONFIRM ORDER RECEIVED" is offered for "To Receive" itself, and, when
   * "To Receive" is missing from the list, for every status missing from it.
   */
  lemma ReceivingMeaning(statuses: seq<string>, status: string)
    ensures IsReceiving(statuses, status) <==>
      status == "To Receive" || (status !in statuses && "To Receive" !in statuses)
  {
    var p, q := Position(statuses, status), Position(statuses, "To Receive");
    if p == q && p >= 0 {
      assert statuses[p] == status && statuses[q] == "To Receive";
    }
  }

  /**
   * "Cancel Order" is offered for every status missing from the list, and for
   * a listed status exactly when it occurs at or before "To Ship".
   */
  lemma CancellableMeaning(statuses: seq<string>, status: string)
    ensures IsCancellable(statuses, status) <==>
      status !in statuses || status in statuses[..Position(statuses, "To Ship") + 1]
  {
    var p, q := Position(statuses, status), Position(statuses, "To Ship");
    if 0 <= p <= q {
      assert statuses[..q + 1][p] == status;
    } else if p > q {
      assert statuses[..q + 1] == statuses[..p][..q + 1];
    }
  }

  /** An unknown status is cancellable, whatever the list. */
  lemma UnknownIsCancellable(statuses: seq<string>, status: string)
    requires status !in statuses
    ensures IsCancellable(statuses, status)
  {
  }

  /**
   * The banner reads "en route" for a listed status at or after "Shipped";
   * when "Shipped" is missing from the list it reads so for every status.
   */
  lemma ShippedMeaning(statuses: seq<string>, status: string)
    ensures "Shipped" !in statuses ==> IsShipped(statuses, status)
    ensures "Shipped" in statuses ==>
      (IsShipped(statuses, status) <==> status in statuses && status !in statuses[..Position(statuses, "Shipped")])
  {
    var p, q := Position(statuses, status), Position(statuses, "Shipped");
    if 0 <= q <= p {
      assert statuses[..q] == statuses[..p][..q];
    } else if 0 <= p < q {
      assert statuses[..q][p] == status;
    }
  }

  /**
   * Whenever the demo button is shown the status is listed, strictly after
   * "To Ship", and the entry after it exists and is not the last one.
   */
  lemma DemoNextInRange(statuses: seq<string>, status: string)
    requires ShowsDemoNext(statuses, status)
    ensures status in statuses
    ensures Position(statuses, "To Ship") < Position(statuses, status)
    ensures 0 <= Position(statuses, status) + 1 < |statuses| - 1
  {
  }

  /** The status the demo button proposes: the list entry after the current one. */
  function DemoNextStatus(statuses: seq<string>, status: string): (r: string)
    requires ShowsDemoNext(statuses, status)
    ensures r in statuses
  {
    statuses[Position(statuses, status) + 1]
  }

  /**
   * For a list without repetitions, the proposed status sits exactly one
   * position after the current one, so it differs from it and is not the
   * last entry.
   */
  lemma DemoNextPosition(statuses: seq<string>, status: string)
    requires ShowsDemoNext(statuses, status)
    requires NoDuplicates(statuses)
    ensures Position(statuses, DemoNextStatus(statuses, status)) == Position(statuses, status) + 1
    ensures DemoNextStatus(statuses, status) != status
    ensures DemoNextStatus(statuses, status) != statuses[|statuses| - 1]
  {
    IndexOfDistinct(statuses, Position(statuses, status) + 1);
  }

  // ---------------------------------------------------------------------
  // The status pill
  // ---------------------------------------------------------------------

  /** The colour schemes of `StatusPill`, one per key of its table. */
  datatype Pill = ToShipPill | ShippedPill | ToReceivePill | CompletedPill | CancelledPill

  /** `statusColors[status] || statusColors['To Ship']`. */
  function PillFor(status: string): Pill
  {
    if status == "Shipped" then ShippedPill
    else if status == "To Receive" then ToReceivePill
    else if status == "Completed" then CompletedPill
    else if status == "Cancelled" then CancelledPill
    else ToShipPill
  }

  /** Any status outside the table wears the colours of "To Ship". */
  lemma PillFallback(status: string)
    ensures status !in ["Shipped", "To Receive", "Completed", "Cancelled"] ==> PillFor(status) == PillFor("To Ship")
  {
  }

  // ---------------------------------------------------------------------
  // The view's state
  // ---------------------------------------------------------------------

  class TrackingView {
    var currentOrder: OrderHistory.Segment

    constructor (order: OrderHistory.Segment)
      ensures currentOrder == order
    {
      currentOrder := order;
    }

    /**
     * `handleUpdateStatus`: after a successful store update only the status
     * of the shown order changes; an error leaves it as it was.
     */
    method UpdateStatus(newStatus: string, storeError: Option<string>)
      modifies this
      ensures storeError.None? ==> currentOrder == old(currentOrder).(status := newStatus)
      ensures storeError.Some? ==> currentOrder == old(currentOrder)
    {
      if storeError.None? {
        currentOrder := currentOrder.(status := newStatus);
      }
    }

    /** "CONFIRM ORDER RECEIVED". */
    method ConfirmReceived(statuses: seq<string>, storeError: Option<string>)
      requires IsReceiving(statuses, currentOrder.status)
      modifies this
      ensures currentOrder == if storeError.None? then old(currentOrder).(status := "Completed") else old(currentOrder)
    {
      UpdateStatus("Completed", storeError);
    }

    /** "Cancel Order". */
    method Cancel(statuses: seq<string>, storeError: Option<string>)
      requires IsCancellable(statuses, currentOrder.status)
      modifies this
      ensures currentOrder == if storeError.None? then old(currentOrder).(status := "Cancelled") else old(currentOrder)
    {
      UpdateStatus("Cancelled", storeError);
    }

    /** "[DEMO] Next Status": moves the order one entry along the list. */
    method DemoAdvance(statuses: seq<string>, storeError: Option<string>)
      requires ShowsDemoNext(statuses, currentOrder.status)
      modifies this
      ensures storeError.None? ==>
        currentOrder == old(currentOrder).(status := DemoNextStatus(statuses, old(currentOrder.status)))
      ensures storeError.Some? ==> currentOrder == old(currentOrder)
    {
      UpdateStatus(DemoNextStatus(statuses, currentOrder.status), storeError);
    }
  }
}
