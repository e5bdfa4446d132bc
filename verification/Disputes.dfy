/** A dispute refund is final, and what vendor writes do that their author did not intend. */
module Disputes {
  import opened Base
  import opened Ledger
  import opened Orders
  import opened Market
  import opened Tables
  import opened Conservation

  // ---------- A refunded dispute ----------

  predicate RefundedAt(orders: map<OrderId, Order>, id: OrderId) {
    id in orders && orders[id].dispute.Refunded?
  }

  /** Every credit of an order whose dispute was refunded has failed, and the order can no
      longer be paid for. */
  ghost predicate Buried(orders: map<OrderId, Order>, l: seq<Entry>) {
    && (forall id :: id in orders && orders[id].dispute.Refunded? ==> !Unpaid(orders[id].status))
    && (forall i :: 0 <= i < |l| && l[i].order.Some? && RefundedAt(orders, l[i].order.value) ==> l[i].status.Failed?)
  }

  /** Only a refund closes a dispute by refunding, and it voids every live credit. */
  lemma RefundVoids(o: Order, m: Move, now: int, held: bool)
    ensures var r := Act(o, m, now, held);
            r.order.dispute.Refunded? && !o.dispute.Refunded? ==> r.fx.VoidLive? && r.order.status.Cancelled?
  {
  }

  lemma WriteBuried(orders: map<OrderId, Order>, l: seq<Entry>, id: OrderId, o: Order, fx: Effect)
    requires Buried(orders, l) && id in orders
    requires o.dispute.Refunded? ==> !Unpaid(o.status) && (orders[id].dispute.Refunded? || fx.VoidLive?)
    ensures Buried(orders[id := o], Apply(l, id, fx))
  {
    var r := Apply(l, id, fx);
    forall i | 0 <= i < |r| && r[i].order.Some? && RefundedAt(orders[id := o], r[i].order.value)
      ensures r[i].status.Failed?
    {
      assert r[i] == Shift(l[i], id, fx);
    }
  }

  lemma ActBuried(s: State, id: OrderId, m: Move)
    requires Buried(s.orders, s.ledger)
    ensures Buried(ActOn(s, id, m).state.orders, ActOn(s, id, m).state.ledger)
  {
    hide Act, OrderFollows;
    if id in s.orders {
      var o, held := s.orders[id], HasHeld(s.ledger, id);
      RefundVoids(o, m, s.now, held);
      RefundStays(o, m, s.now, held);
      hide Buried;
      assert Buried(s.orders, s.ledger);
      WriteBuried(s.orders, s.ledger, id, Act(o, m, s.now, held).order, Act(o, m, s.now, held).fx);
    }
  }

  lemma RefundStays(o: Order, m: Move, now: int, held: bool)
    ensures !Unpaid(o.status) ==> !Unpaid(Act(o, m, now, held).order.status)
    ensures o.dispute.Refunded? ==> Act(o, m, now, held).order.dispute.Refunded?
  {
    ActFollows(o, m, now, held);
    hide Act;
  }

  lemma PayOneBuried(s: State, ref: Ref, id: OrderId, lone: bool)
    requires Buried(s.orders, s.ledger)
    ensures Buried(PayOne(s, ref, id, lone).orders, PayOne(s, ref, id, lone).ledger)
  {
    hide RedeemAll;
  }

  lemma {:induction false} PayAllBuried(s: State, ref: Ref, rows: seq<OrderId>, lone: bool)
    requires Buried(s.orders, s.ledger)
    ensures Buried(PayAll(s, ref, rows, lone).orders, PayAll(s, ref, rows, lone).ledger)
    decreases |rows|
  {
    hide Buried, PayOne;
    if rows != [] {
      PayOneBuried(s, ref, rows[0], lone);
      PayAllBuried(PayOne(s, ref, rows[0], lone), ref, rows[1..], lone);
    }
  }

  lemma CommitBuried(s: State, sid: SessionId)
    requires Buried(s.orders, s.ledger)
    ensures Buried(CommitConfirmStep(s, sid).state.orders, CommitConfirmStep(s, sid).state.ledger)
  {
    hide Buried, PayAll;
    if sid in s.sessions && s.sessions[sid].Confirming? {
      PayAllBuried(Close(s, sid), s.sessions[sid].ref, s.sessions[sid].rows, s.sessions[sid].lone);
    }
  }

  lemma PlaceBuried(s: State, sid: SessionId, ids: seq<OrderId>)
    requires TablesOk(s) && Buried(s.orders, s.ledger)
    ensures Buried(PlaceOrdersStep(s, sid, ids).state.orders, s.ledger)
  {
    hide TablesOk;
    if PlaceOrdersStep(s, sid, ids).reply.Ok? {
      Placed(s, sid, ids);
      hide PlaceOrdersStep;
      var t := PlaceOrdersStep(s, sid, ids).state;
      assert forall id :: id in t.orders && id !in s.orders ==> t.orders[id].dispute.Undisputed?;
      hide NewOrder;
      forall i | 0 <= i < |s.ledger| && s.ledger[i].order.Some? && RefundedAt(t.orders, s.ledger[i].order.value)
        ensures s.ledger[i].status.Failed?
      {
        assert RefundedAt(s.orders, s.ledger[i].order.value);
      }
    }
  }

  lemma AbandonBuried(s: State)
    requires Buried(s.orders, s.ledger)
    ensures Buried(AbandonAll(s.orders, s.now), s.ledger)
  {
  }

  lemma SweepBuried(s: State, sid: SessionId)
    requires Buried(s.orders, s.ledger)
    ensures Buried(SweepStep(s, sid).state.orders, SweepStep(s, sid).state.ledger)
  {
    hide Buried, ActOn;
    if sid in s.sessions && s.sessions[sid].Sweeping? && s.sessions[sid].pos < |s.sessions[sid].rows| {
      ActBuried(s, s.sessions[sid].rows[s.sessions[sid].pos], SweepMark);
      ActBuried(s, s.sessions[sid].rows[s.sessions[sid].pos], SweepRelease);
    }
  }

  lemma VendorBuried(s: State, id: OrderId, store: StoreId, status: OrderStatus)
    requires Buried(s.orders, s.ledger)
    ensures var t := VendorWritesStep(s, id, store, status).state; Buried(t.orders, t.ledger)
  {
    hide Buried, ActOn;
    if id in s.orders { ActBuried(s, id, VendorSets(store, status, FulfilmentOf(s.orders, id))); }
  }

  /** Rows that belong to no order are not in the way. */
  lemma MoneyBuried(s: State, a: Step)
    requires Buried(s.orders, s.ledger) && (a.PayOut? || a.Deposit?)
    ensures Buried(s.orders, Next(s, a).state.ledger)
  {
    var e := MoneyAdds(s, a);
    hide Next;
  }

  lemma {:induction false} StepBuried(s: State, a: Step)
    requires TablesOk(s) && Buried(s.orders, s.ledger)
    ensures Buried(Next(s, a).state.orders, Next(s, a).state.ledger)
  {
    hide Buried, TablesOk, Next;
    if a.VendorWrites? || a.OnOrder? || a.Sweep? {
      OrderStepBuried(s, a);
    } else if Elsewhere(a) {
      QuietRows(s, a);
    } else if a.PayOut? || a.Deposit? {
      MoneyBuried(s, a);
      var e := MoneyAdds(s, a);
    } else {
      CheckoutStepBuried(s, a);
    }
  }

  lemma OrderStepBuried(s: State, a: Step)
    requires Buried(s.orders, s.ledger) && (a.VendorWrites? || a.OnOrder? || a.Sweep?)
    ensures Buried(Next(s, a).state.orders, Next(s, a).state.ledger)
  {
    hide *;
    OrderStepIs(s, a);
    match a
    case VendorWrites(id, store, status) => VendorBuried(s, id, store, status);
    case OnOrder(id, m) => ActBuried(s, id, m);
    case Sweep(sid) => SweepBuried(s, sid);
  }

  lemma CheckoutStepBuried(s: State, a: Step)
    requires TablesOk(s) && Buried(s.orders, s.ledger)
    requires a.PlaceOrders? || a.CommitConfirm? || a.MarkAbandoned?
    ensures Buried(Next(s, a).state.orders, Next(s, a).state.ledger)
  {
    hide Buried, TablesOk, PlaceOrdersStep, CommitConfirmStep, AbandonAll;
    match a
    case PlaceOrders(sid, ids) => PlaceBuried(s, sid, ids);
    case CommitConfirm(sid) => CommitBuried(s, sid);
    case MarkAbandoned => AbandonBuried(s);
  }

  lemma {:induction false} RunBuried(s: State, steps: seq<Step>)
    requires TablesOk(s) && Buried(s.orders, s.ledger)
    ensures Buried(Run(s, steps).orders, Run(s, steps).ledger)
    decreases |steps|
  {
    hide Buried, TablesOk, Next;
    if steps != [] {
      StepBuried(s, steps[0]);
      StepOk(s, steps[0]);
      RunBuried(Next(s, steps[0]).state, steps[1..]);
    }
  }

  /** Once a dispute is refunded it stays refunded, and its order never again has a pending or
      completed credit, whatever vendors, administrators and sweeps do next. */
  lemma RefundIsFinal(s: State, steps: seq<Step>, later: seq<Step>, id: OrderId)
    requires Unused(s)
    requires id in Run(s, steps).orders && Run(s, steps).orders[id].dispute.Refunded?
    ensures var t := Run(s, steps + later);
            && id in t.orders && t.orders[id].dispute.Refunded?
            && forall i :: 0 <= i < |t.ledger| && t.ledger[i].order == Some(id) ==> t.ledger[i].status.Failed?
  {
    hide *;
    RunAppend(s, steps, later);
    UnusedBuried(s);
    RunOk(s, steps);
    RunOk(Run(s, steps), later);
    RunBuried(s, steps + later);
    var u, t := Run(s, steps), Run(s, steps + later);
    StaysRefunded(u.orders, t.orders, id);
    BuriedRows(t.orders, t.ledger, id);
  }

  lemma UnusedBuried(s: State)
    requires Unused(s)
    ensures TablesOk(s) && Buried(s.orders, s.ledger)
  {
  }

  lemma StaysRefunded(before: map<OrderId, Order>, after: map<OrderId, Order>, id: OrderId)
    requires OrdersFollow(before, after) && id in before && before[id].dispute.Refunded?
    ensures id in after && after[id].dispute.Refunded? && RefundedAt(after, id)
  {
    assert OrderFollows(before[id], after[id]);
  }

  lemma BuriedRows(orders: map<OrderId, Order>, l: seq<Entry>, id: OrderId)
    requires Buried(orders, l) && RefundedAt(orders, id)
    ensures forall i :: 0 <= i < |l| && l[i].order == Some(id) ==> l[i].status.Failed?
  {
  }

  // ---------- Vendor writes ----------

  /** A vendor's cancellation never refunds the buyer and never touches the credit: the new
      status is written first, and the refund then takes the order for one already cancelled.
      A later no-show refund takes it for the same. */
  lemma VendorCancelNeverRefunds(s: State, id: OrderId, agrees: bool)
    requires id in s.orders
    ensures var out := VendorWritesStep(s, id, s.orders[id].store, Cancelled);
            && out.reply.Ok? && out.state.orders[id] == s.orders[id].(status := Cancelled)
            && out.state.ledger == s.ledger
            && ActOn(out.state, id, NoShowRefund(agrees)) == Out(out.state, Ok(()))
  {
    var t := VendorWritesStep(s, id, s.orders[id].store, Cancelled).state;
    KeepChangesNothing(s.ledger, id);
    assert t.orders[id] == s.orders[id].(status := Cancelled);
    assert t.orders[id := t.orders[id]] == t.orders;
  }

  /** Any vendor write accepted on an unpaid order takes it out of reach of payment: the
      confirmation passes over it, and no credit is written. */
  lemma VendorWriteBlocksPayment(s: State, id: OrderId, store: StoreId, status: OrderStatus, ref: Ref, lone: bool)
    requires id in s.orders && VendorWritesStep(s, id, store, status).reply.Ok?
    ensures var t := VendorWritesStep(s, id, store, status).state; PayOne(t, ref, id, lone) == t
  {
    hide RedeemAll, Insert, FulfilmentOf;
  }

  /** Why a vendor must leave an order alone once it has gone: confirming a delivered order
      again lets a no-show refund return money whose credit has already been paid out, and
      the account no longer adds up. */
  lemma ReopenedOrderLosesMoney(o: Order, now: int, carrier: Fulfilment, paidOut: int, n: int)
    requires Account(o, 0, paidOut, 1, n) && o.status.Delivered? && o.refunds == [] && o.ref != "" && paidOut > 0
    ensures var reopened := Act(o, VendorSets(o.store, Confirmed, carrier), now, false).order;
            var r := Act(reopened, NoShowRefund(true), now, false);
            && r.reply.Ok? && r.order.refunds == [o.total]
            && PaidAfter(0, paidOut, r.fx) == paidOut
            && !Account(r.order, HeldAfter(0, r.fx), PaidAfter(0, paidOut, r.fx), 1, n)
  {
  }
}
