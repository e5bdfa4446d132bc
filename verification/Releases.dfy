/** Why credits are released, in terms of what the orders table records. */
module Releases {
  import opened Base
  import opened Ledger
  import opened Orders
  import opened Market
  import opened Tables

  /** The stamps an order carries: what was sent was dispatched, what was delivered was confirmed,
      a buyer's confirmation left all three stamps, and the sweep pays only what was dispatched. */
  ghost predicate Stamped(o: Order) {
    && (o.status.Shipped? || o.status.ReadyForCollection? ==> o.dispatched.Some?)
    && (o.status.Delivered? ==> o.dispatched.Some? && o.delivered.Some? && o.confirmed.Some?)
    && (BuyerConfirmed in o.reasons ==> o.dispatched.Some? && o.delivered.Some? && o.confirmed.Some?)
    && (AutoReleased in o.reasons ==> o.dispatched.Some?)
  }

  ghost predicate Sent(orders: map<OrderId, Order>, id: OrderId) {
    id in orders && orders[id].dispatched.Some?
  }

  /** Every row a sweep has read was dispatched. */
  ghost predicate SweepsSent(sessions: map<SessionId, Session>, orders: map<OrderId, Order>) {
    forall sid, i :: sid in sessions && sessions[sid].Sweeping? && 0 <= i < |sessions[sid].rows| ==>
      Sent(orders, sessions[sid].rows[i])
  }

  ghost predicate Stamps(s: State) {
    (forall id :: id in s.orders ==> Stamped(s.orders[id])) && SweepsSent(s.sessions, s.orders)
  }

  lemma ActStamped(o: Order, m: Move, now: int, held: bool)
    requires Stamped(o) && (m.SweepRelease? ==> o.dispatched.Some?)
    ensures Stamped(Act(o, m, now, held).order)
  {
  }

  /** No stamp is ever taken back. */
  lemma ActStaysSent(o: Order, m: Move, now: int, held: bool)
    ensures o.dispatched.Some? ==> Act(o, m, now, held).order.dispatched.Some?
  {
  }

  lemma ActOnStamps(s: State, id: OrderId, m: Move)
    requires Stamps(s) && (m.SweepRelease? ==> Sent(s.orders, id))
    ensures Stamps(ActOn(s, id, m).state)
    ensures forall x :: Sent(s.orders, x) ==> Sent(ActOn(s, id, m).state.orders, x)
  {
    hide Act, Apply, HasHeld, Stamped;
    if id in s.orders {
      ActStamped(s.orders[id], m, s.now, HasHeld(s.ledger, id));
      ActStaysSent(s.orders[id], m, s.now, HasHeld(s.ledger, id));
    }
  }

  lemma SweepStamps(s: State, sid: SessionId)
    requires Stamps(s)
    ensures Stamps(SweepStep(s, sid).state)
  {
    hide ActOn, Stamped, Sent;
    if sid in s.sessions && s.sessions[sid].Sweeping? && s.sessions[sid].pos < |s.sessions[sid].rows| {
      var w := s.sessions[sid];
      var m := if w.between then SweepRelease else SweepMark;
      assert Sent(s.orders, w.rows[w.pos]);
      ActOnStamps(s, w.rows[w.pos], m);
      hide Stamps;
      StillSent(s, ActOn(s, w.rows[w.pos], m).state, sid);
      MovedOn(ActOn(s, w.rows[w.pos], m).state, sid, w.rows, if w.between then w.pos + 1 else w.pos, !w.between);
    }
  }

  lemma StillSent(s: State, t: State, sid: SessionId)
    requires Stamps(s) && sid in s.sessions && s.sessions[sid].Sweeping?
    requires forall x :: Sent(s.orders, x) ==> Sent(t.orders, x)
    ensures var rows := s.sessions[sid].rows; forall i :: 0 <= i < |rows| ==> Sent(t.orders, rows[i])
  {
    hide Sent, Stamped;
  }

  lemma MovedOn(t: State, sid: SessionId, rows: seq<OrderId>, pos: nat, between: bool)
    requires Stamps(t) && forall i :: 0 <= i < |rows| ==> Sent(t.orders, rows[i])
    ensures Stamps(WithSession(t, sid, Sweeping(rows, pos, between)))
  {
    hide Sent, Stamped;
  }

  lemma VendorStamps(s: State, id: OrderId, store: StoreId, status: OrderStatus)
    requires Stamps(s)
    ensures Stamps(VendorWritesStep(s, id, store, status).state)
  {
    hide ActOn, Stamps;
    if id in s.orders { ActOnStamps(s, id, VendorSets(store, status, FulfilmentOf(s.orders, id))); }
  }

  /** Orders that only changed status, and not to one that needs a stamp, keep theirs. */
  lemma RestampedOk(s: State, orders: map<OrderId, Order>)
    requires Stamps(s) && orders.Keys == s.orders.Keys
    requires forall id :: id in orders ==>
               || orders[id] == s.orders[id]
               || orders[id] == s.orders[id].(status := Abandoned)
               || orders[id] == s.orders[id].(status := Confirmed, paid := orders[id].paid)
    ensures Stamps(s.(orders := orders))
  {
    forall id | id in orders ensures Stamped(orders[id]) && (s.orders[id].dispatched == orders[id].dispatched) {
      assert Stamped(s.orders[id]);
    }
  }

  lemma {:induction false} PayAllStamps(s: State, ref: Ref, rows: seq<OrderId>, lone: bool)
    requires Stamps(s)
    ensures Stamps(PayAll(s, ref, rows, lone))
    decreases |rows|
  {
    if rows != [] {
      PayOneStamps(s, ref, rows[0], lone);
      hide Stamps, PayOne;
      PayAllStamps(PayOne(s, ref, rows[0], lone), ref, rows[1..], lone);
    }
  }

  lemma PayOneStamps(s: State, ref: Ref, id: OrderId, lone: bool)
    requires Stamps(s)
    ensures Stamps(PayOne(s, ref, id, lone))
  {
    hide Stamped, RedeemAll, Insert, CreditRow;
    if AwaitsPayment(s.orders, id) {
      RestampedOk(s, PayOne(s, ref, id, lone).orders);
    }
  }

  lemma CommitStamps(s: State, sid: SessionId)
    requires Stamps(s)
    ensures Stamps(CommitConfirmStep(s, sid).state)
  {
    hide PayAll, Stamped;
    if sid in s.sessions && s.sessions[sid].Confirming? {
      PayAllStamps(Close(s, sid), s.sessions[sid].ref, s.sessions[sid].rows, s.sessions[sid].lone);
    }
  }

  lemma AbandonStamps(s: State)
    requires Stamps(s)
    ensures Stamps(s.(orders := AbandonAll(s.orders, s.now)))
  {
    hide Stamped;
    RestampedOk(s, AbandonAll(s.orders, s.now));
  }

  lemma PlaceStamps(s: State, sid: SessionId, ids: seq<OrderId>)
    requires Stamps(s)
    ensures Stamps(PlaceOrdersStep(s, sid, ids).state)
  {
    if PlaceOrdersStep(s, sid, ids).reply.Ok? {
      Placed(s, sid, ids);
      NewStamped(s.sessions[sid].req, s.now);
      var t := PlaceOrdersStep(s, sid, ids).state;
      hide PlaceOrdersStep, Stamped, NewOrder;
      forall id | id in t.orders ensures Stamped(t.orders[id]) {
        assert id in s.orders ==> t.orders[id] == s.orders[id];
      }
    } else {
      hide Stamped, Sent, InsertOrders, FreshIds, Insertable;
    }
  }

  lemma NewStamped(req: Checkout, now: int)
    ensures forall k :: 0 <= k < |req.baskets| ==> Stamped(NewOrder(req, k, now))
  {
  }

  lemma CheckoutStamps(s: State, sid: SessionId, req: Checkout)
    requires Stamps(s)
    ensures Stamps(BeginCheckoutStep(s, sid, req).state)
  {
    hide Stamped, Sent, ValidRequest;
  }

  lemma PriceStamps(s: State, sid: SessionId)
    requires Stamps(s)
    ensures Stamps(PriceLineStep(s, sid).state)
  {
    hide Stamped, Sent, CheckLine;
  }

  lemma ConfirmStamps(s: State, sid: SessionId, ref: Ref, rows: seq<OrderId>)
    requires Stamps(s)
    ensures Stamps(BeginConfirmStep(s, sid, ref, rows).state)
  {
    hide Stamped, Sent, SumTotals, AwaitsPayment, RowsOf;
  }

  lemma BeginSweepStamps(s: State, sid: SessionId, rows: seq<OrderId>)
    requires Stamps(s)
    ensures Stamps(BeginSweepStep(s, sid, rows).state)
  {
    if BeginSweepStep(s, sid, rows).reply.Ok? {
      assert forall i :: 0 <= i < |rows| ==> Sent(s.orders, rows[i]);
    }
    hide Stamped, Sent, DueRows;
  }

  lemma CallStamps(s: State, a: Step)
    requires Stamps(s) && (a.BeginCheckout? || a.PriceLine? || a.BeginConfirm? || a.BeginSweep?)
    ensures Stamps(Next(s, a).state)
  {
    hide Stamps, BeginCheckoutStep, PriceLineStep, BeginConfirmStep, BeginSweepStep;
    match a
    case BeginCheckout(sid, req) => CheckoutStamps(s, sid, req);
    case PriceLine(sid) => PriceStamps(s, sid);
    case BeginConfirm(sid, ref, rows) => ConfirmStamps(s, sid, ref, rows);
    case BeginSweep(sid, rows) => BeginSweepStamps(s, sid, rows);
  }

  lemma OrderStepStamps(s: State, a: Step)
    requires Stamps(s) && (a.VendorWrites? || a.OnOrder? || a.Sweep?)
    ensures Stamps(Next(s, a).state)
  {
    hide *;
    OrderStepIs(s, a);
    match a
    case VendorWrites(id, store, status) => VendorStamps(s, id, store, status);
    case OnOrder(id, m) => if !m.SweepRelease? { ActOnStamps(s, id, m); } else { NextRefuses(s, a); }
    case Sweep(sid) => SweepStamps(s, sid);
  }

  lemma NextRefuses(s: State, a: Step)
    requires a.OnOrder? && a.move.SweepRelease?
    ensures Next(s, a).state == s
  {
  }

  lemma CheckoutStepStamps(s: State, a: Step)
    requires Stamps(s) && (a.PlaceOrders? || a.CommitConfirm? || a.MarkAbandoned?)
    ensures Stamps(Next(s, a).state)
  {
    hide Stamps, PlaceOrdersStep, CommitConfirmStep, AbandonAll;
    match a
    case PlaceOrders(sid, ids) => PlaceStamps(s, sid, ids);
    case CommitConfirm(sid) => CommitStamps(s, sid);
    case MarkAbandoned => AbandonStamps(s);
  }

  lemma StepStamps(s: State, a: Step)
    requires Stamps(s)
    ensures Stamps(Next(s, a).state)
  {
    hide Next, Stamped, Sent;
    if a.VendorWrites? || a.OnOrder? || a.Sweep? {
      OrderStepStamps(s, a);
    } else if a.PlaceOrders? || a.CommitConfirm? || a.MarkAbandoned? {
      CheckoutStepStamps(s, a);
    } else if a.PayOut? || a.Deposit? {
      var e := MoneyAdds(s, a);
    } else if a.BeginCheckout? || a.PriceLine? || a.BeginConfirm? || a.BeginSweep? {
      CallStamps(s, a);
    } else {
      QuietRows(s, a);
      OtherSessions(s, a);
    }
  }

  lemma {:induction false} RunStamps(s: State, steps: seq<Step>)
    requires Stamps(s)
    ensures Stamps(Run(s, steps))
    decreases |steps|
  {
    hide Stamps, Next;
    if steps != [] {
      StepStamps(s, steps[0]);
      RunStamps(Next(s, steps[0]).state, steps[1..]);
    }
  }

  /** Every released credit of an order, in every run: the order was paid for; unless an
      administrator released it by hand it was dispatched; and if the buyer's confirmation
      released it, its dispatch, delivery and confirmation are all on record. A release that
      neither the buyer nor an administrator made is the sweep's. */
  lemma {:induction false} ReleasesAreJustified(s: State, steps: seq<Step>, i: int)
    requires Unused(s)
    requires 0 <= i < |Run(s, steps).ledger|
    ensures var t := Run(s, steps);
            t.ledger[i].order.Some? && t.ledger[i].status.Completed? ==>
              && t.ledger[i].order.value in t.orders
              && var o := t.orders[t.ledger[i].order.value];
                 && o.paid.Some?
                 && (AdminReleased in o.reasons || o.dispatched.Some?)
                 && (BuyerConfirmed in o.reasons ==> o.dispatched.Some? && o.delivered.Some? && o.confirmed.Some?)
                 && (AdminReleased in o.reasons || BuyerConfirmed in o.reasons || AutoReleased in o.reasons)
  {
    RunOk(s, steps);
    RunStamps(s, steps);
    var t := Run(s, steps);
    assert OwnCredit(t.ledger[i], t.orders);
    if t.ledger[i].order.Some? && t.ledger[i].status.Completed? {
      var o := t.orders[t.ledger[i].order.value];
      assert Stamped(o);
      ReasonIsOneOf(o.reasons);
    }
  }

  lemma ReasonIsOneOf(reasons: set<Reason>)
    requires reasons != {}
    ensures AdminReleased in reasons || BuyerConfirmed in reasons || AutoReleased in reasons
  {
    var r :| r in reasons;
    assert r == AdminReleased || r == BuyerConfirmed || r == AutoReleased;
  }
}
