/** What most steps leave as it was: payments, calls in flight that confirm, and the orders listed on
    a reference. */
module Frames {
  import opened Base
  import opened Orders
  import opened Market
  import opened Tables

  // ---------- Calls in flight that confirm ----------

  ghost predicate ConfirmsStay(before: map<SessionId, Session>, after: map<SessionId, Session>) {
    && (forall sid :: sid in after && after[sid].Confirming? ==> sid in before && after[sid] == before[sid])
    && (forall sid :: sid in before && before[sid].Confirming? ==> sid in after && after[sid] == before[sid])
  }

  lemma CheckoutConfirms(s: State, sid: SessionId, req: Checkout)
    ensures ConfirmsStay(s.sessions, BeginCheckoutStep(s, sid, req).state.sessions)
  {
    hide ValidRequest;
  }

  lemma PriceConfirms(s: State, sid: SessionId)
    ensures ConfirmsStay(s.sessions, PriceLineStep(s, sid).state.sessions)
  {
    hide CheckLine;
  }

  lemma PlaceConfirms(s: State, sid: SessionId, ids: seq<OrderId>)
    ensures ConfirmsStay(s.sessions, PlaceOrdersStep(s, sid, ids).state.sessions)
  {
    hide InsertOrders, FreshIds, Insertable, InsertError;
  }

  lemma BeginSweepConfirms(s: State, sid: SessionId, rows: seq<OrderId>)
    ensures ConfirmsStay(s.sessions, BeginSweepStep(s, sid, rows).state.sessions)
  {
    hide DueRows;
  }

  lemma SweepConfirms(s: State, sid: SessionId)
    ensures ConfirmsStay(s.sessions, SweepStep(s, sid).state.sessions)
  {
    SweepIs(s, sid);
    hide SweepStep;
  }

  lemma CallConfirms(s: State, a: Step)
    requires a.BeginCheckout? || a.PriceLine? || a.PlaceOrders? || a.BeginSweep? || a.Sweep?
    ensures ConfirmsStay(s.sessions, Next(s, a).state.sessions)
  {
    hide ConfirmsStay, BeginCheckoutStep, PriceLineStep, PlaceOrdersStep, BeginSweepStep, SweepStep;
    match a
    case BeginCheckout(sid, req) => CheckoutConfirms(s, sid, req);
    case PriceLine(sid) => PriceConfirms(s, sid);
    case PlaceOrders(sid, ids) => PlaceConfirms(s, sid, ids);
    case BeginSweep(sid, rows) => BeginSweepConfirms(s, sid, rows);
    case Sweep(sid) => SweepConfirms(s, sid);
  }

  // ---------- Payments ----------

  /** Payment of these orders is as it was. */
  ghost predicate SamePaid(before: map<OrderId, Order>, after: map<OrderId, Order>) {
    forall id :: id in before ==> id in after && after[id].paid == before[id].paid
  }

  lemma ActPaid(s: State, id: OrderId, m: Move)
    ensures SamePaid(s.orders, ActOn(s, id, m).state.orders)
  {
    hide Act, HasHeld;
    if id in s.orders { ActFollows(s.orders[id], m, s.now, HasHeld(s.ledger, id)); }
  }

  lemma VendorPaid(s: State, id: OrderId, store: StoreId, status: OrderStatus)
    ensures SamePaid(s.orders, VendorWritesStep(s, id, store, status).state.orders)
  {
    hide ActOn, FulfilmentOf;
    if id in s.orders { ActPaid(s, id, VendorSets(store, status, FulfilmentOf(s.orders, id))); }
  }

  lemma SweepPaid(s: State, sid: SessionId)
    ensures SamePaid(s.orders, SweepStep(s, sid).state.orders)
  {
    hide ActOn;
    if sid in s.sessions && s.sessions[sid].Sweeping? && s.sessions[sid].pos < |s.sessions[sid].rows| {
      ActPaid(s, s.sessions[sid].rows[s.sessions[sid].pos], SweepMark);
      ActPaid(s, s.sessions[sid].rows[s.sessions[sid].pos], SweepRelease);
    }
  }

  lemma PlacePaid(s: State, sid: SessionId, ids: seq<OrderId>)
    ensures SamePaid(s.orders, PlaceOrdersStep(s, sid, ids).state.orders)
  {
    if PlaceOrdersStep(s, sid, ids).reply.Ok? {
      Placed(s, sid, ids);
      hide PlaceOrdersStep;
    } else {
      hide InsertOrders, FreshIds, Insertable;
    }
  }

  lemma StepPaid(s: State, a: Step)
    requires !a.CommitConfirm?
    ensures SamePaid(s.orders, Next(s, a).state.orders)
  {
    hide *;
    SelfPaid(s.orders);
    if a.VendorWrites? || a.OnOrder? || a.Sweep? {
      OrderStepIs(s, a);
      match a {
        case VendorWrites(id, store, status) => VendorPaid(s, id, store, status);
        case OnOrder(id, m) => ActPaid(s, id, m);
        case Sweep(sid) => SweepPaid(s, sid);
      }
    } else if a.PlaceOrders? {
      CheckoutStepIs(s, a);
      PlacePaid(s, a.sid, a.ids);
    } else if a.MarkAbandoned? {
      CheckoutStepIs(s, a);
      AbandonPaid(s.orders, s.now);
    } else if a.PayOut? || a.Deposit? {
      var e := MoneyAdds(s, a);
    } else {
      IsElsewhere(a);
      QuietRows(s, a);
    }
  }

  lemma AbandonPaid(orders: map<OrderId, Order>, now: int)
    ensures SamePaid(orders, AbandonAll(orders, now))
  {
  }

  lemma SelfPaid(orders: map<OrderId, Order>)
    ensures SamePaid(orders, orders)
  {
  }

  // ---------- The index ----------

  /** Orders are only ever added to a reference. */
  lemma IndexGrows(s: State, a: Step, ref: Ref)
    ensures RowsOf(s.index, ref) <= RowsOf(Next(s, a).state.index, ref)
  {
    if a.PlaceOrders? {
      hide InsertOrders, Insertable, FreshIds;
    } else {
      SameIndex(s, a);
      hide Next;
    }
  }

  lemma SameIndex(s: State, a: Step)
    requires !a.PlaceOrders?
    ensures Next(s, a).state.index == s.index
  {
    hide CreateOfferStep, BuyerMoveStep, VendorMoveStep, ExpireAll, BeginCheckoutStep,
         PriceLineStep, BeginConfirmStep, CommitConfirmStep, AbandonAll, VendorWritesStep, ActOn,
         BeginSweepStep, SweepStep, WithdrawStep, DepositStep;
  }

  lemma {:induction false} RunGrows(s: State, steps: seq<Step>, ref: Ref)
    ensures RowsOf(s.index, ref) <= RowsOf(Run(s, steps).index, ref)
    decreases |steps|
  {
    hide Next, RowsOf;
    if steps != [] {
      IndexGrows(s, steps[0], ref);
      RunGrows(Next(s, steps[0]).state, steps[1..], ref);
    }
  }

  lemma RefusedOrders(s: State, sid: SessionId, ids: seq<OrderId>)
    requires PlaceOrdersStep(s, sid, ids).reply.Err?
    ensures var t := PlaceOrdersStep(s, sid, ids).state;
            && t.orders == s.orders && t.index == s.index && t.offers == s.offers
  {
    hide InsertOrders, FreshIds, Insertable;
  }
}
