/** The conditions on which the orders service acts, in terms of the stored columns alone. */
module Terms {
  import opened Base
  import opened Negotiation
  import opened Orders
  import opened Market
  import opened AutoRelease

  /** The buyer's offers on a product opened in the last 24 hours. */
  ghost function OpenedToday(offers: map<OfferId, Offer>, product: ProductId, email: Email, now: int): set<OfferId> {
    set f | f in offers && offers[f].product == product && offers[f].email == email
            && offers[f].created > now - 24 * 3600
  }

  /** The buyer has no offer on the product that is still open, lapsed or not. */
  ghost predicate NoneOpen(offers: map<OfferId, Offer>, product: ProductId, email: Email) {
    forall f :: f in offers && offers[f].product == product && offers[f].email == email ==>
      offers[f].status != Pending && offers[f].status != Countered
  }

  lemma TodayAre(offers: map<OfferId, Offer>, product: ProductId, email: Email, now: int)
    ensures OpenedToday(offers, product, email, now) == RecentOffers(offers, product, email, now)
    ensures NoneOpen(offers, product, email) <==> !OpenExists(offers, product, email)
  {
    var today, recent := OpenedToday(offers, product, email, now), RecentOffers(offers, product, email, now);
    assert forall f :: f in today <==> f in recent;
  }

  lemma InsertableIs(req: Checkout)
    ensures Insertable(req) <==>
            && (req.isPickup ==> req.fee == 0)
            && forall k :: 0 <= k < |req.baskets| ==> LinesTotal(req.baskets[k].lines) > 0
  {
    hide LinesTotal;
  }

  /** An order that has not left and was paid through Paystack, which agrees to a refund. */
  ghost predicate RefundsUndelivered(o: Order, paystackAgrees: bool) {
    o.status != Cancelled && o.status != Shipped && o.status != Delivered && o.ref != "" && paystackAgrees
  }

  /** The order is cancelled for this reason and refunded once more, in full. */
  ghost predicate CancelledFor(before: map<OrderId, Order>, after: map<OrderId, Order>, id: OrderId,
                               reason: CancelReason) {
    && id in before
    && after == before[id := before[id].(status := Cancelled, cancelReason := Some(reason),
                                         refunds := before[id].refunds + [before[id].total])]
  }

  /** No other store has an order on this order's payment. */
  ghost predicate DeliversItself(orders: map<OrderId, Order>, id: OrderId)
    requires id in orders
  {
    orders[id].ref == "" ||
    forall other :: other in orders && orders[other].ref == orders[id].ref ==> orders[other].store == orders[id].store
  }

  lemma CarrierIs(orders: map<OrderId, Order>, id: OrderId)
    requires id in orders
    ensures DeliversItself(orders, id) <==> FulfilmentOf(orders, id).ByVendor?
  {
  }

  /** Sent more than seven days ago, and neither confirmed nor reported missing. */
  ghost predicate LeftWaiting(o: Order, now: int) {
    && o.status == Shipped && o.dispatched.Some? && o.dispatched.value + 7 * 24 * 3600 < now
    && o.confirmed == None && o.dispute != Reported
  }

  /** Exactly the orders left waiting are delivered and confirmed as of now, for the sweep's reason;
      every other order is as it was. */
  ghost predicate WaitingDelivered(before: map<OrderId, Order>, after: map<OrderId, Order>, now: int) {
    && after.Keys == before.Keys
    && forall id :: id in before ==>
         after[id] == if LeftWaiting(before[id], now)
                      then before[id].(status := Delivered, delivered := Some(now), confirmed := Some(now),
                                       reasons := before[id].reasons + {AutoReleased})
                      else before[id]
  }

  lemma OverdueAre(orders: map<OrderId, Order>, rows: seq<OrderId>, now: int)
    requires DueRows(orders, rows, now - ESCROW_WINDOW)
    ensures forall id :: id in rows <==> id in orders && LeftWaiting(orders[id], now)
  {
  }

  lemma DeliveredAre(before: map<OrderId, Order>, after: map<OrderId, Order>, rows: seq<OrderId>, now: int)
    requires AllDelivered(before, after, rows, now)
    requires forall id :: id in rows <==> id in before && LeftWaiting(before[id], now)
    ensures WaitingDelivered(before, after, now)
  {
    hide LeftWaiting;
  }
}
