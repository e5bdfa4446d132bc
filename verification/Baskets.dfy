/** Basket arithmetic: what a checkout writes adds up to what is charged, and what is charged is
    split between the vendors and the platform. */
module Baskets {
  import opened Base
  import opened Orders
  import opened Market
  import opened Tables
  import opened Escrow
  import opened Charges
  import opened Conservation
  import opened Frames

  // ---------- What a checkout writes ----------

  /** An order that stands for one store's part of a checkout: that store's lines for this buyer, one
      delivery on the first order, nothing paid and nothing done yet. */
  ghost predicate PlacedAs(o: Order, req: Checkout, k: int, now: int)
    requires 0 <= k < |req.baskets|
  {
    && o.store == req.baskets[k].store && o.lines == req.baskets[k].lines
    && o.email == req.email && o.isPickup == req.isPickup && o.ref == req.ref
    && o.status == AwaitingPayment && o.created == now
    && o.fee == (if k == 0 then req.fee else 0) && o.total == LinesTotal(o.lines) + o.fee
    && o.hub == None && o.dispatched == None && o.delivered == None && o.confirmed == None && o.paid == None
    && o.cancelReason == None && o.dispute == Undisputed && o.refunds == [] && o.reasons == {}
  }

  /** One new order per store, in the order of the request; every other order is as it was. */
  ghost predicate AllPlaced(before: map<OrderId, Order>, after: map<OrderId, Order>, req: Checkout, ids: seq<OrderId>,
                            now: int)
    requires |ids| == |req.baskets|
  {
    && (forall id :: id in after <==> id in before || id in ids)
    && (forall id :: id in before ==> after[id] == before[id])
    && (forall k :: 0 <= k < |ids| ==> ids[k] in after && PlacedAs(after[ids[k]], req, k, now))
  }

  lemma InsertedColumns(orders: map<OrderId, Order>, req: Checkout, ids: seq<OrderId>, now: int)
    requires |ids| == |req.baskets| && FreshIds(orders, ids)
    ensures AllPlaced(orders, InsertOrders(orders, req, ids, |ids|, now), req, ids, now)
  {
    InsertedRows(orders, req, ids, now);
    hide InsertOrders, LinesTotal;
  }

  // ---------- Basket totals ----------

  function BasketsTotal(baskets: seq<Basket>): int {
    if baskets == [] then 0 else LinesTotal(baskets[|baskets| - 1].lines) + BasketsTotal(baskets[..|baskets| - 1])
  }

  /** What one checkout writes adds up to all its lines and one delivery, which is the amount
      the confirmation will verify the charge against. */
  lemma {:induction false} TotalsReconcile(orders: map<OrderId, Order>, req: Checkout, ids: seq<OrderId>, k: int,
                                           now: int)
    requires 0 <= k <= |ids| == |req.baskets| && FreshIds(orders, ids)
    ensures SumTotals(InsertOrders(orders, req, ids, k, now), ids[..k]) ==
            BasketsTotal(req.baskets[..k]) + (if k == 0 then 0 else req.fee)
  {
    if k > 0 {
      TotalsReconcile(orders, req, ids, k - 1, now);
      var before := InsertOrders(orders, req, ids, k - 1, now);
      var after := InsertOrders(orders, req, ids, k, now);
      assert ids[..k] == ids[..k - 1] + [ids[k - 1]];
      assert req.baskets[..k][..k - 1] == req.baskets[..k - 1];
      SumLast(after, ids[..k - 1], ids[k - 1]);
      SumUnmoved(before, after, ids[..k - 1]);
      assert after[ids[k - 1]] == NewOrder(req, k - 1, now);
    }
  }

  lemma {:induction false} SumLast(orders: map<OrderId, Order>, rows: seq<OrderId>, id: OrderId)
    requires id in orders
    ensures SumTotals(orders, rows + [id]) == SumTotals(orders, rows) + orders[id].total
  {
    if rows == [] {
      assert rows + [id] == [id];
    } else {
      assert (rows + [id])[1..] == rows[1..] + [id];
      SumLast(orders, rows[1..], id);
    }
  }

  lemma SumUnmoved(x: map<OrderId, Order>, y: map<OrderId, Order>, rows: seq<OrderId>)
    requires forall i :: 0 <= i < |rows| ==> (rows[i] in x <==> rows[i] in y)
    requires forall i :: 0 <= i < |rows| && rows[i] in x ==> x[rows[i]] == y[rows[i]]
    ensures SumTotals(x, rows) == SumTotals(y, rows)
  {
  }

  // ---------- The split of a charge ----------

  lemma {:induction false} NoFees(orders: map<OrderId, Order>, rows: seq<OrderId>, n: int)
    requires forall i :: 0 <= i < |rows| ==> rows[i] in orders && orders[rows[i]].fee == 0
    ensures FeesKept(orders, rows, n) == 0
  {
    if rows != [] { NoFees(orders, rows[1..], n); }
  }

  lemma {:induction false} NoRefunds(orders: map<OrderId, Order>, rows: seq<OrderId>)
    requires forall i :: 0 <= i < |rows| ==> rows[i] in orders && orders[rows[i]].refunds == []
    ensures RefundsOn(orders, rows) == 0
  {
    if rows != [] { NoRefunds(orders, rows[1..]); }
  }

  /** The platform's share of a fee recorded against the first order. */
  lemma FeeOnFirst(orders: map<OrderId, Order>, rows: seq<OrderId>, fee: int)
    requires rows != [] && forall i :: 0 <= i < |rows| ==> rows[i] in orders && orders[rows[i]].refunds == []
    requires forall i :: 0 <= i < |rows| ==> orders[rows[i]].fee == if i == 0 then fee else 0
    ensures FeesKept(orders, rows, |rows|) == if |rows| == 1 then 0 else fee
  {
    NoFees(orders, rows[1..], |rows|);
  }

  lemma FeesLater(x: map<OrderId, Order>, y: map<OrderId, Order>, req: Checkout, ids: seq<OrderId>)
    requires OrdersFollow(x, y)
    requires forall i :: 0 <= i < |ids| ==> ids[i] in x && x[ids[i]].ref == req.ref && x[ids[i]].fee == FeeOf(req, i)
    ensures forall i :: 0 <= i < |ids| ==> ids[i] in y && y[ids[i]].ref == req.ref && y[ids[i]].fee == FeeOf(req, i)
    ensures SumTotals(x, ids) == SumTotals(y, ids)
  {
    hide FeeOf, SumTotals;
    SumFollows(x, y, ids);
    forall i | 0 <= i < |ids|
      ensures ids[i] in y && y[ids[i]].ref == req.ref && y[ids[i]].fee == FeeOf(req, i)
    {
      assert OrderFollows(x[ids[i]], y[ids[i]]);
    }
  }

  // ---------- A checkout alone on its reference ----------

  /** Only a call that has read every row of a reference confirms it. */
  ghost predicate ReadsAll(sessions: map<SessionId, Session>, ref: Ref, ids: seq<OrderId>) {
    forall sid :: sid in sessions && sessions[sid].Confirming? && sessions[sid].ref == ref ==>
      forall id :: id in ids ==> id in sessions[sid].rows
  }

  lemma StaysRead(before: map<SessionId, Session>, after: map<SessionId, Session>, ref: Ref, ids: seq<OrderId>)
    requires ReadsAll(before, ref, ids) && ConfirmsStay(before, after)
    ensures ReadsAll(after, ref, ids)
  {
  }

  lemma BeginReads(s: State, sid: SessionId, other: Ref, rows: seq<OrderId>, ref: Ref, ids: seq<OrderId>)
    requires ReadsAll(s.sessions, ref, ids) && RowsOf(s.index, ref) == ids
    ensures ReadsAll(BeginConfirmStep(s, sid, other, rows).state.sessions, ref, ids)
  {
    if multiset(rows) == multiset(RowsOf(s.index, other)) { SameRows(rows, RowsOf(s.index, other)); }
    hide SumTotals, AwaitsPayment, RowsOf;
  }

  lemma StepReads(s: State, a: Step, ref: Ref, ids: seq<OrderId>)
    requires ReadsAll(s.sessions, ref, ids) && RowsOf(s.index, ref) == ids && !a.CommitConfirm?
    ensures ReadsAll(Next(s, a).state.sessions, ref, ids)
  {
    if a.BeginConfirm? {
      hide BeginConfirmStep, ReadsAll;
      BeginReads(s, a.sid, a.ref, a.rows, ref, ids);
    } else {
      hide *;
      if a.BeginCheckout? || a.PriceLine? || a.PlaceOrders? || a.BeginSweep? || a.Sweep? {
        CallConfirms(s, a);
        StaysRead(s.sessions, Next(s, a).state.sessions, ref, ids);
      } else {
        OtherSessions(s, a);
      }
    }
  }

  /** A reference's orders are paid for together or not at all, and every call on it has read
      them all. */
  ghost predicate Together(s: State, ref: Ref, ids: seq<OrderId>) {
    && RowsOf(s.index, ref) == ids
    && (AllPaid(s.orders, ids) || NonePaid(s.orders, ids))
    && ReadsAll(s.sessions, ref, ids)
  }

  lemma PaidAlike(x: map<OrderId, Order>, y: map<OrderId, Order>, ids: seq<OrderId>)
    requires SamePaid(x, y)
    ensures AllPaid(x, ids) ==> AllPaid(y, ids)
    ensures NonePaid(x, ids) ==> NonePaid(y, ids)
  {
  }

  lemma CommitTogether(s: State, sid: SessionId, ref: Ref, ids: seq<OrderId>)
    requires Kept(s) && Together(s, ref, ids)
    ensures var t := CommitConfirmStep(s, sid).state;
            (AllPaid(t.orders, ids) || NonePaid(t.orders, ids)) && ReadsAll(t.sessions, ref, ids)
  {
    hide *;
    TogetherGives(s, ref, ids);
    if sid in s.sessions && s.sessions[sid].Confirming? {
      var c := s.sessions[sid];
      var b := Close(s, sid);
      CloseReads(s, sid, ref, ids);
      ReadAll(s.sessions, sid, ref, ids);
      CommitFacts(s, sid);
      CloseKept(s, sid);
      KeptGives(b);
      KeptGives(s);
      CommitIs(s, sid);
      PayAllAccounts(b, c.ref, c.rows, c.lone);
      if c.ref == ref {
        PaidThrough(PayAll(b, c.ref, c.rows, c.lone).orders, c.rows, ids);
      } else {
        OtherRows(s, c.ref, c.rows, ref, ids);
        LeavesPaid(b, c.ref, c.rows, c.lone, ids);
      }
    } else {
      NoCommit(s, sid);
    }
  }

  lemma TogetherGives(s: State, ref: Ref, ids: seq<OrderId>)
    requires Together(s, ref, ids)
    ensures RowsOf(s.index, ref) == ids && (AllPaid(s.orders, ids) || NonePaid(s.orders, ids))
    ensures ReadsAll(s.sessions, ref, ids)
  {
  }

  lemma NoCommit(s: State, sid: SessionId)
    requires !(sid in s.sessions && s.sessions[sid].Confirming?)
    ensures CommitConfirmStep(s, sid).state == s
  {
  }

  lemma ReadAll(sessions: map<SessionId, Session>, sid: SessionId, ref: Ref, ids: seq<OrderId>)
    requires ReadsAll(sessions, ref, ids) && sid in sessions && sessions[sid].Confirming?
    ensures sessions[sid].ref == ref ==> forall id :: id in ids ==> id in sessions[sid].rows
  {
  }

  lemma CloseReads(s: State, sid: SessionId, ref: Ref, ids: seq<OrderId>)
    requires ReadsAll(s.sessions, ref, ids)
    ensures ReadsAll(Close(s, sid).sessions, ref, ids)
    ensures Close(s, sid) == s.(sessions := s.sessions - {sid})
  {
  }

  lemma OtherRows(s: State, other: Ref, rows: seq<OrderId>, ref: Ref, ids: seq<OrderId>)
    requires Indexed(s.orders, s.index) && RowsOf(s.index, ref) == ids && other != ref
    requires forall i :: 0 <= i < |rows| ==> rows[i] in s.orders && s.orders[rows[i]].ref == other
    ensures forall i :: 0 <= i < |ids| ==> ids[i] in s.orders && ids[i] !in rows
  {
    RowsThere(s.orders, s.index, ref);
    hide Indexed, RowsOf;
  }

  lemma LeavesPaid(b: State, ref: Ref, rows: seq<OrderId>, lone: bool, ids: seq<OrderId>)
    requires forall i :: 0 <= i < |ids| ==> ids[i] in b.orders && ids[i] !in rows
    requires AllPaid(b.orders, ids) || NonePaid(b.orders, ids)
    ensures var t := PayAll(b, ref, rows, lone); AllPaid(t.orders, ids) || NonePaid(t.orders, ids)
  {
    hide PayAll;
    var t := PayAll(b, ref, rows, lone);
    forall i | 0 <= i < |ids| ensures ids[i] in t.orders && t.orders[ids[i]] == b.orders[ids[i]] {
      PayAllElsewhere(b, ref, rows, lone, ids[i]);
    }
  }

  lemma PaidThrough(orders: map<OrderId, Order>, rows: seq<OrderId>, ids: seq<OrderId>)
    requires AllPaid(orders, rows) && forall id :: id in ids ==> id in rows
    ensures AllPaid(orders, ids)
  {
    forall i | 0 <= i < |ids| ensures ids[i] in orders && orders[ids[i]].paid.Some? {
      assert ids[i] in rows;
      var j :| 0 <= j < |rows| && rows[j] == ids[i];
    }
  }

  lemma StepTogether(s: State, a: Step, ref: Ref, ids: seq<OrderId>)
    requires Kept(s) && Together(s, ref, ids) && RowsOf(Next(s, a).state.index, ref) == ids
    ensures Together(Next(s, a).state, ref, ids)
  {
    if a.CommitConfirm? {
      hide Kept, CommitConfirmStep, AllPaid, NonePaid, ReadsAll, RowsOf;
      CommitTogether(s, a.sid, ref, ids);
    } else {
      hide Kept, Next, AllPaid, NonePaid, ReadsAll, SamePaid;
      StepReads(s, a, ref, ids);
      StepPaid(s, a);
      PaidAlike(s.orders, Next(s, a).state.orders, ids);
    }
  }

  lemma {:induction false} RunTogether(s: State, steps: seq<Step>, ref: Ref, ids: seq<OrderId>)
    requires Kept(s) && DisciplinedRun(s, steps)
    requires Together(s, ref, ids) && RowsOf(Run(s, steps).index, ref) == ids
    ensures Together(Run(s, steps), ref, ids)
    decreases |steps|
  {
    if steps != [] {
      TogetherGives(s, ref, ids);
      var next := Next(s, steps[0]).state;
      assert Disciplined(s, steps[0]) && DisciplinedRun(next, steps[1..]) && Run(s, steps) == Run(next, steps[1..]);
      hide *;
      IndexGrows(s, steps[0], ref);
      RunGrows(next, steps[1..], ref);
      Squeezed(ids, RowsOf(next.index, ref));
      StepTogether(s, steps[0], ref, ids);
      StepKept(s, steps[0]);
      RunTogether(next, steps[1..], ref, ids);
    }
  }

  lemma Squeezed(ids: seq<OrderId>, rows: seq<OrderId>)
    requires ids <= rows <= ids
    ensures rows == ids
  {
  }

  /** A checkout on a fresh reference, just placed. */
  lemma PlacedTogether(p: State, sid: SessionId, ids: seq<OrderId>)
    requires Kept(p) && PlaceOrdersStep(p, sid, ids).reply.Ok?
    requires sid in p.sessions && p.sessions[sid].Pricing? && RowsOf(p.index, p.sessions[sid].req.ref) == []
    ensures var req := p.sessions[sid].req;
            var q := PlaceOrdersStep(p, sid, ids).state;
            && Together(q, req.ref, ids) && ids != [] && |ids| == |req.baskets|
            && q.orders == InsertOrders(p.orders, req, ids, |ids|, p.now) && FreshIds(p.orders, ids)
  {
    KeptGives(p);
    PlacedRows(p, sid, ids);
    ValidInFlight(p, sid);
    PlacedIs(p, sid, ids);
    hide PlaceOrdersStep, OrdersFollow, FreshAccount, Indexed, InsertOrders, FreshIds, Matched, Accounts,
         Charged, RowsOk, TablesOk, OrdersShape, Paying, ValidLine;
    var ref := p.sessions[sid].req.ref;
    var q := PlaceOrdersStep(p, sid, ids).state;
    forall other | other in q.sessions && q.sessions[other].Confirming? ensures q.sessions[other].ref != ref {
      CallHasRows(p, other);
    }
    assert [] + ids == ids;
  }

  lemma CallHasRows(p: State, sid: SessionId)
    requires CallsKept(p) && sid in p.sessions && p.sessions[sid].Confirming?
    ensures RowsOf(p.index, p.sessions[sid].ref) != []
  {
    hide Paying;
    var c := p.sessions[sid];
    assert CallKept(c, p.orders, p.index, p.charges);
    AlsoSome(c.rows, Paying(p.orders, p.index, p.charges, c.ref));
  }

  lemma PlacedIs(p: State, sid: SessionId, ids: seq<OrderId>)
    requires PlaceOrdersStep(p, sid, ids).reply.Ok?
    requires sid in p.sessions && p.sessions[sid].Pricing? && ValidRequest(p.sessions[sid].req)
    ensures var req := p.sessions[sid].req;
            && |ids| == |req.baskets| && ids != [] && FreshIds(p.orders, ids)
            && PlaceOrdersStep(p, sid, ids).state.orders == InsertOrders(p.orders, req, ids, |ids|, p.now)
  {
    hide InsertOrders, Insertable, FreshIds, ValidLine;
  }

  lemma ValidInFlight(p: State, sid: SessionId)
    requires Kept(p) && sid in p.sessions && p.sessions[sid].Pricing?
    ensures ValidRequest(p.sessions[sid].req)
  {
  }

  lemma InsertedFees(orders: map<OrderId, Order>, req: Checkout, ids: seq<OrderId>, now: int)
    requires |ids| == |req.baskets| && ids != [] && FreshIds(orders, ids)
    ensures var q := InsertOrders(orders, req, ids, |ids|, now);
            && (forall i :: 0 <= i < |ids| ==>
                  ids[i] in q && q[ids[i]].ref == req.ref && q[ids[i]].fee == FeeOf(req, i))
            && SumTotals(q, ids) == BasketsTotal(req.baskets) + req.fee
  {
    InsertedRows(orders, req, ids, now);
    TotalsReconcile(orders, req, ids, |ids|, now);
    assert ids[..|ids|] == ids && req.baskets[..|req.baskets|] == req.baskets;
    hide InsertOrders, FreshIds, SumTotals, BasketsTotal;
  }

  /** Basket arithmetic to its last line. Take a checkout of any number of stores on a fresh
      reference that no other checkout comes to share, and any disciplined run after it. Once it
      has been paid for, and until something is refunded, the charge is all the line totals plus
      one delivery fee; the vendors' credits are the line totals, plus the fee only for a lone
      order; the platform keeps nothing of a lone order and the fee of a basket. */
  lemma BasketSplit(s: State, steps: seq<Step>, sid: SessionId, ids: seq<OrderId>, later: seq<Step>)
    requires Unused(s) && DisciplinedRun(s, steps)
    requires var p := Run(s, steps);
             && sid in p.sessions && p.sessions[sid].Pricing? && PlaceOrdersStep(p, sid, ids).reply.Ok?
             && RowsOf(p.index, p.sessions[sid].req.ref) == []
             && Disciplined(p, PlaceOrders(sid, ids))
             && DisciplinedRun(PlaceOrdersStep(p, sid, ids).state, later)
    requires var t := Run(PlaceOrdersStep(Run(s, steps), sid, ids).state, later);
             && RowsOf(t.index, Run(s, steps).sessions[sid].req.ref) == ids
             && (exists i :: 0 <= i < |ids| && ids[i] in t.orders && t.orders[ids[i]].paid.Some?)
             && (forall i :: 0 <= i < |ids| && ids[i] in t.orders ==> t.orders[ids[i]].refunds == [])
    ensures var req := Run(s, steps).sessions[sid].req;
            var t := Run(PlaceOrdersStep(Run(s, steps), sid, ids).state, later);
            && req.ref in t.charges && t.charges[req.ref] == BasketsTotal(req.baskets) + req.fee
            && LiveCredits(t.ledger, ids) == BasketsTotal(req.baskets) + (if |req.baskets| == 1 then req.fee else 0)
            && FeesKept(t.orders, ids, |ids|) == (if |req.baskets| == 1 then 0 else req.fee)
  {
    hide *;
    UnusedKept(s);
    RunKept(s, steps);
    SplitFrom(Run(s, steps), sid, ids, PlaceOrdersStep(Run(s, steps), sid, ids).state, later);
  }

  lemma SplitFrom(p: State, sid: SessionId, ids: seq<OrderId>, q: State, later: seq<Step>)
    requires Kept(p) && PlaceOrdersStep(p, sid, ids).reply.Ok? && q == PlaceOrdersStep(p, sid, ids).state
    requires sid in p.sessions && p.sessions[sid].Pricing? && RowsOf(p.index, p.sessions[sid].req.ref) == []
    requires Disciplined(p, PlaceOrders(sid, ids)) && DisciplinedRun(q, later)
    requires var t := Run(q, later);
             && RowsOf(t.index, p.sessions[sid].req.ref) == ids
             && (exists i :: 0 <= i < |ids| && ids[i] in t.orders && t.orders[ids[i]].paid.Some?)
             && (forall i :: 0 <= i < |ids| && ids[i] in t.orders ==> t.orders[ids[i]].refunds == [])
    ensures var req := p.sessions[sid].req;
            var t := Run(q, later);
            && req.ref in t.charges && t.charges[req.ref] == BasketsTotal(req.baskets) + req.fee
            && LiveCredits(t.ledger, ids) == BasketsTotal(req.baskets) + (if |req.baskets| == 1 then req.fee else 0)
            && FeesKept(t.orders, ids, |ids|) == (if |req.baskets| == 1 then 0 else req.fee)
  {
    hide *;
    var req := p.sessions[sid].req;
    PlaceKept(p, sid, ids);
    PlacedTogether(p, sid, ids);
    InsertedFees(p.orders, req, ids, p.now);
    RunTogether(q, later, req.ref, ids);
    RunKept(q, later);
    KeptGives(q);
    RunOk(q, later);
    FeesLater(q.orders, Run(q, later).orders, req, ids);
    TogetherGives(Run(q, later), req.ref, ids);
    OnePaid(Run(q, later).orders, ids);
    FeeFirst(Run(q, later).orders, req, ids);
    SplitOf(Run(q, later), req, ids);
  }

  lemma SplitOf(t: State, req: Checkout, ids: seq<OrderId>)
    requires Kept(t) && Together(t, req.ref, ids) && |ids| == |req.baskets|
    requires AllPaid(t.orders, ids) && ids != [] && SumTotals(t.orders, ids) == BasketsTotal(req.baskets) + req.fee
    requires forall i :: 0 <= i < |ids| ==> ids[i] in t.orders && t.orders[ids[i]].refunds == []
    requires forall i :: 0 <= i < |ids| ==> t.orders[ids[i]].fee == if i == 0 then req.fee else 0
    ensures && req.ref in t.charges && t.charges[req.ref] == BasketsTotal(req.baskets) + req.fee
            && LiveCredits(t.ledger, ids) == BasketsTotal(req.baskets) + (if |req.baskets| == 1 then req.fee else 0)
            && FeesKept(t.orders, ids, |ids|) == (if |req.baskets| == 1 then 0 else req.fee)
  {
    hide *;
    TogetherGives(t, req.ref, ids);
    PaidOfAll(t.orders, ids);
    KeptConserves(t, req.ref);
    NoRefunds(t.orders, ids);
    FeeOnFirst(t.orders, ids, req.fee);
  }

  lemma FeeFirst(orders: map<OrderId, Order>, req: Checkout, ids: seq<OrderId>)
    requires forall i :: 0 <= i < |ids| ==> ids[i] in orders && orders[ids[i]].fee == FeeOf(req, i)
    ensures forall i :: 0 <= i < |ids| ==> orders[ids[i]].fee == if i == 0 then req.fee else 0
  {
    forall i | 0 <= i < |ids| ensures orders[ids[i]].fee == if i == 0 then req.fee else 0 {
      assert orders[ids[i]].fee == FeeOf(req, i);
    }
  }

  lemma OnePaid(orders: map<OrderId, Order>, ids: seq<OrderId>)
    requires AllPaid(orders, ids) || NonePaid(orders, ids)
    requires exists i :: 0 <= i < |ids| && ids[i] in orders && orders[ids[i]].paid.Some?
    ensures AllPaid(orders, ids) && ids != []
  {
  }
}
