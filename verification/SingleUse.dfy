/** One deal, several orders: pricing looks only at what has been redeemed, so a deal can be bought
    with twice; and when it cannot. */
module SingleUse {
  import opened Base
  import opened Negotiation
  import opened Orders
  import opened Market
  import opened Tables
  import opened Deals
  import opened Frames

  /** The order has been bought with the deal, or still can be. */
  predicate Claims(o: Order, f: OfferId) {
    Names(o.lines, f) && (o.paid.Some? || Unpaid(o.status))
  }

  /** The order has been bought with the deal. */
  predicate BoughtWith(o: Order, f: OfferId) {
    o.paid.Some? && Names(o.lines, f)
  }

  ghost predicate Single(orders: map<OrderId, Order>) {
    forall a, b, f :: a in orders && b in orders && Claims(orders[a], f) && Claims(orders[b], f) ==> a == b
  }

  /** A deal that an order has been paid for with is redeemed. */
  ghost predicate Spent(offers: map<OfferId, Offer>, orders: map<OrderId, Order>) {
    forall id, f :: id in orders && orders[id].paid.Some? && Names(orders[id].lines, f) ==>
      f in offers && offers[f].status.Redeemed?
  }

  /** No order is placed with a deal that another order claims or that has been redeemed. The code
      checks the second when it prices a line, which may be earlier, and the first never. */
  ghost predicate OneAtATime(s: State, a: Step) {
    a.PlaceOrders? ==>
      var t := Next(s, a).state;
      forall id :: id in t.orders && id !in s.orders ==> Unclaimed(s.offers, t.orders, id)
  }

  ghost predicate Unclaimed(offers: map<OfferId, Offer>, orders: map<OrderId, Order>, id: OrderId)
    requires id in orders
  {
    forall f :: Names(orders[id].lines, f) ==>
      && (f in offers ==> !offers[f].status.Redeemed?)
      && forall other :: other in orders && other != id ==> !Claims(orders[other], f)
  }

  ghost predicate OneAtATimeRun(s: State, steps: seq<Step>)
    decreases |steps|
  {
    steps != [] ==> OneAtATime(s, steps[0]) && OneAtATimeRun(Next(s, steps[0]).state, steps[1..])
  }

  // ---------- Steps that place nothing and pay for nothing ----------

  lemma ClaimsBack(before: Order, after: Order, f: OfferId)
    requires OrderFollows(before, after) && after.paid == before.paid && Claims(after, f)
    ensures Claims(before, f)
  {
  }

  lemma SameSingle(x: map<OrderId, Order>, y: map<OrderId, Order>)
    requires Single(x) && OrdersFollow(x, y) && SamePaid(x, y) && y.Keys == x.Keys
    ensures Single(y)
  {
    hide OrderFollows, Claims;
    forall a, b, f | a in y && b in y && Claims(y[a], f) && Claims(y[b], f) ensures a == b {
      assert OrderFollows(x[a], y[a]) && OrderFollows(x[b], y[b]);
      ClaimsBack(x[a], y[a], f);
      ClaimsBack(x[b], y[b], f);
    }
  }

  lemma SameLines(before: Order, after: Order)
    requires OrderFollows(before, after)
    ensures after.lines == before.lines
  {
  }

  lemma StaysRedeemed(before: Offer, after: Offer)
    requires Follows(before, after) && before.status.Redeemed?
    ensures after.status.Redeemed?
  {
  }

  lemma SameSpent(o: map<OfferId, Offer>, p: map<OfferId, Offer>, x: map<OrderId, Order>, y: map<OrderId, Order>)
    requires Spent(o, x) && OffersFollow(o, p) && OrdersFollow(x, y) && SamePaid(x, y) && y.Keys == x.Keys
    ensures Spent(p, y)
  {
    hide OrderFollows, Follows, Names;
    forall id, f | id in y && y[id].paid.Some? && Names(y[id].lines, f) ensures f in p && p[f].status.Redeemed? {
      SameLines(x[id], y[id]);
      assert f in o && Follows(o[f], p[f]);
      StaysRedeemed(o[f], p[f]);
    }
  }

  // ---------- Paying ----------

  lemma PayOneSingle(s: State, ref: Ref, id: OrderId, lone: bool)
    requires Single(s.orders)
    ensures Single(PayOne(s, ref, id, lone).orders)
  {
    hide RedeemAll, CreditRow, Names;
    var t := PayOne(s, ref, id, lone);
    forall a, b, f | a in t.orders && b in t.orders && Claims(t.orders[a], f) && Claims(t.orders[b], f) ensures a == b {
      assert Claims(s.orders[a], f) && Claims(s.orders[b], f);
    }
  }

  lemma RedeemsNamed(s: State, id: OrderId, f: OfferId)
    requires DealsOk(s) && id in s.orders && Names(s.orders[id].lines, f)
    ensures f in s.offers && RedeemAll(s.offers, s.orders[id].lines, id)[f].status.Redeemed?
  {
    hide Bracket, Rising, Consented, Bounded, Redemptions, SessionsHonest;
    var o := s.orders[id];
    assert Honest(s.offers, o.email, o.lines);
    var i :| 0 <= i < |o.lines| && o.lines[i].deal == Some(f);
    assert DealLine(s.offers, o.email, o.lines[i]) && Sound(s.offers[f]);
  }

  lemma PayOneSpent(s: State, ref: Ref, id: OrderId, lone: bool)
    requires DealsOk(s) && Spent(s.offers, s.orders)
    ensures Spent(PayOne(s, ref, id, lone).offers, PayOne(s, ref, id, lone).orders)
  {
    hide CreditRow, DealsOk, Names;
    var t := PayOne(s, ref, id, lone);
    forall x, f | x in t.orders && t.orders[x].paid.Some? && Names(t.orders[x].lines, f)
      ensures f in t.offers && t.offers[f].status.Redeemed?
    {
      if x == id && AwaitsPayment(s.orders, id) {
        RedeemsNamed(s, id, f);
      } else {
        assert f in s.offers && s.offers[f].status.Redeemed?;
      }
    }
  }

  lemma {:induction false} PayAllSingle(s: State, ref: Ref, rows: seq<OrderId>, lone: bool)
    requires RowsOk(s.orders, s.index, s.ledger) && DealsOk(s) && Single(s.orders) && Spent(s.offers, s.orders)
    requires forall i :: 0 <= i < |rows| ==> rows[i] in s.orders && s.orders[rows[i]].ref == ref
    ensures var t := PayAll(s, ref, rows, lone); Single(t.orders) && Spent(t.offers, t.orders)
    decreases |rows|
  {
    hide Single, Spent, DealsOk, PayOne, Indexed, Credits;
    if rows != [] {
      var next := PayOne(s, ref, rows[0], lone);
      PayOneSingle(s, ref, rows[0], lone);
      PayOneSpent(s, ref, rows[0], lone);
      PayOneDeals(s, ref, rows[0], lone);
      PayOneOk(s, ref, rows[0], lone);
      PayAllSingle(next, ref, rows[1..], lone);
    }
  }

  lemma CommitSingle(s: State, sid: SessionId)
    requires TablesOk(s) && DealsOk(s) && Single(s.orders) && Spent(s.offers, s.orders)
    ensures var t := CommitConfirmStep(s, sid).state; Single(t.orders) && Spent(t.offers, t.orders)
  {
    hide Single, Spent, DealsOk, RowsOk, PayAll;
    if sid in s.sessions && s.sessions[sid].Confirming? {
      CloseDeals(s, sid);
      PayAllSingle(Close(s, sid), s.sessions[sid].ref, s.sessions[sid].rows, s.sessions[sid].lone);
    }
  }

  // ---------- Placing ----------

  lemma PlaceSingle(s: State, sid: SessionId, ids: seq<OrderId>)
    requires Single(s.orders) && Spent(s.offers, s.orders)
    requires OneAtATime(s, PlaceOrders(sid, ids))
    ensures var t := PlaceOrdersStep(s, sid, ids).state; Single(t.orders) && Spent(t.offers, t.orders)
  {
    hide *;
    CheckoutStepIs(s, PlaceOrders(sid, ids));
    var t := PlaceOrdersStep(s, sid, ids).state;
    if PlaceOrdersStep(s, sid, ids).reply.Ok? {
      Placed(s, sid, ids);
      NewUnclaimed(s, sid, ids);
      NewUnpaidOrders(s, sid, ids);
      PlacedSingle(s.offers, s.orders, t.orders);
      PlacedSpent(s.offers, s.orders, t.orders);
    } else {
      RefusedOrders(s, sid, ids);
    }
  }

  lemma NewUnclaimed(s: State, sid: SessionId, ids: seq<OrderId>)
    requires OneAtATime(s, PlaceOrders(sid, ids))
    ensures var t := PlaceOrdersStep(s, sid, ids).state;
            forall id :: id in t.orders && id !in s.orders ==> Unclaimed(s.offers, t.orders, id)
  {
    CheckoutStepIs(s, PlaceOrders(sid, ids));
    hide Next, PlaceOrdersStep, Unclaimed;
  }

  lemma NewUnpaidOrders(s: State, sid: SessionId, ids: seq<OrderId>)
    requires PlaceOrdersStep(s, sid, ids).reply.Ok?
    ensures var t := PlaceOrdersStep(s, sid, ids).state;
            forall id :: id in t.orders && id !in s.orders ==> t.orders[id].paid.None?
  {
    Placed(s, sid, ids);
    hide PlaceOrdersStep;
  }

  lemma PlacedSingle(offers: map<OfferId, Offer>, x: map<OrderId, Order>, y: map<OrderId, Order>)
    requires Single(x) && forall id :: id in x ==> id in y && y[id] == x[id]
    requires forall id :: id in y && id !in x ==> Unclaimed(offers, y, id)
    ensures Single(y)
  {
    hide Claims, Names;
    forall a, b, f | a in y && b in y && Claims(y[a], f) && Claims(y[b], f) ensures a == b {
      NamesIt(y[a], f);
      NamesIt(y[b], f);
      assert a !in x ==> Unclaimed(offers, y, a);
      assert b !in x ==> Unclaimed(offers, y, b);
    }
  }

  lemma PlacedSpent(offers: map<OfferId, Offer>, x: map<OrderId, Order>, y: map<OrderId, Order>)
    requires Spent(offers, x) && forall id :: id in x ==> id in y && y[id] == x[id]
    requires forall id :: id in y && id !in x ==> y[id].paid.None?
    ensures Spent(offers, y)
  {
    hide Names;
  }

  lemma NamesIt(o: Order, f: OfferId)
    requires Claims(o, f)
    ensures Names(o.lines, f)
  {
  }

  // ---------- Whole runs ----------

  lemma SameKeysOf(s: State, a: Step)
    requires !a.PlaceOrders?
    ensures Next(s, a).state.orders.Keys == s.orders.Keys
  {
    hide CreateOfferStep, BuyerMoveStep, VendorMoveStep, ExpireAll, BeginCheckoutStep, PriceLineStep,
         BeginConfirmStep, CommitConfirmStep, VendorWritesStep, ActOn, BeginSweepStep, SweepStep,
         WithdrawStep, DepositStep;
  }

  lemma StepSingle(s: State, a: Step)
    requires TablesOk(s) && DealsOk(s) && Single(s.orders) && Spent(s.offers, s.orders) && OneAtATime(s, a)
    ensures var t := Next(s, a).state; Single(t.orders) && Spent(t.offers, t.orders)
  {
    hide *;
    if a.PlaceOrders? {
      CheckoutStepIs(s, a);
      PlaceSingle(s, a.sid, a.ids);
    } else if a.CommitConfirm? {
      CheckoutStepIs(s, a);
      CommitSingle(s, a.sid);
    } else {
      var t := Next(s, a).state;
      StepOk(s, a);
      StepDeals(s, a);
      StepPaid(s, a);
      SameKeysOf(s, a);
      SameSingle(s.orders, t.orders);
      SameSpent(s.offers, t.offers, s.orders, t.orders);
    }
  }

  lemma {:induction false} RunSingle(s: State, steps: seq<Step>)
    requires TablesOk(s) && DealsOk(s) && Single(s.orders) && Spent(s.offers, s.orders) && OneAtATimeRun(s, steps)
    ensures var t := Run(s, steps); Single(t.orders) && Spent(t.offers, t.orders)
    decreases |steps|
  {
    if steps != [] {
      hide Single, Spent, TablesOk, DealsOk, Next, OneAtATime;
      StepSingle(s, steps[0]);
      StepOk(s, steps[0]);
      StepDeals(s, steps[0]);
      RunSingle(Next(s, steps[0]).state, steps[1..]);
    }
  }

  /** If no order is placed with a deal that another order claims or that has been redeemed, then a
      deal is bought with once: at most one paid order names it, and that order's units of it do
      not exceed the quantity agreed. */
  lemma {:induction false} DealUsedOnce(s: State, steps: seq<Step>, f: OfferId)
    requires Unused(s) && OneAtATimeRun(s, steps)
    ensures var t := Run(s, steps);
            && (forall a, b :: a in t.orders && b in t.orders
                  && BoughtWith(t.orders[a], f) && BoughtWith(t.orders[b], f)
                  ==> a == b)
            && (forall a :: a in t.orders && BoughtWith(t.orders[a], f) ==>
                  f in t.offers && DealUnits(t.orders[a].lines, f) <= t.offers[f].quantity)
  {
    hide *;
    UnusedDeals(s);
    UnusedSingle(s);
    RunDeals(s, steps);
    RunSingle(s, steps);
    OnceMeans(Run(s, steps), f);
  }

  lemma UnusedSingle(s: State)
    requires Unused(s)
    ensures Single(s.orders) && Spent(s.offers, s.orders)
  {
  }

  lemma OnceMeans(t: State, f: OfferId)
    requires DealsOk(t) && Single(t.orders) && Spent(t.offers, t.orders)
    ensures forall a, b :: a in t.orders && b in t.orders && BoughtWith(t.orders[a], f) && BoughtWith(t.orders[b], f)
              ==> a == b
    ensures forall a :: a in t.orders && BoughtWith(t.orders[a], f) ==>
              f in t.offers && DealUnits(t.orders[a].lines, f) <= t.offers[f].quantity
  {
    hide OffersSound, Redemptions, SessionsHonest, Names;
    forall a | a in t.orders && BoughtWith(t.orders[a], f)
      ensures f in t.offers && DealUnits(t.orders[a].lines, f) <= t.offers[f].quantity
    {
      assert Honest(t.offers, t.orders[a].email, t.orders[a].lines);
    }
    forall a, b | a in t.orders && b in t.orders && BoughtWith(t.orders[a], f) && BoughtWith(t.orders[b], f)
      ensures a == b
    {
      assert Claims(t.orders[a], f) && Claims(t.orders[b], f);
    }
  }
}
