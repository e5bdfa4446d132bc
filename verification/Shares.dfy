/** What each store gets of a checkout: its own lines, and the delivery fee only of a lone order. */
module Shares {
  import opened Base
  import opened Ledger
  import opened Orders
  import opened Market
  import opened Tables
  import opened Escrow
  import opened Charges
  import opened Conservation
  import opened Baskets
  import opened Terms

  /** What the request's lines from one store come to. */
  function StoreLines(baskets: seq<Basket>, store: StoreId): int {
    if baskets == [] then 0
    else
      var b := baskets[|baskets| - 1];
      StoreLines(baskets[..|baskets| - 1], store) + (if b.store == store then LinesTotal(b.lines) else 0)
  }

  /** One store's share of a checkout. */
  function StoreShare(req: Checkout, store: StoreId): int {
    StoreLines(req.baskets, store)
    + (if |req.baskets| == 1 && req.baskets[0].store == store then req.fee else 0)
  }

  /** What the ledger credits a store with for one order, pending or paid out. */
  function CreditUnder(l: seq<Entry>, store: StoreId, id: OrderId): int {
    if l == [] then 0
    else
      (if l[0].order == Some(id) && l[0].store == store && (l[0].status == Held || l[0].status == Completed)
       then l[0].amount else 0)
      + CreditUnder(l[1..], store, id)
  }

  function CreditsUnder(l: seq<Entry>, store: StoreId, ids: seq<OrderId>): int {
    if ids == [] then 0 else CreditsUnder(l, store, ids[..|ids| - 1]) + CreditUnder(l, store, ids[|ids| - 1])
  }

  // ---------- Placing ----------

  /** A checkout is taken up exactly when it has a reference, at least one store, and lines of positive
      quantities at no negative price from each. */
  lemma OpeningExact(s: State, sid: SessionId, req: Checkout)
    requires sid !in s.sessions
    ensures var out := BeginCheckoutStep(s, sid, req);
            && (out.reply.Ok? <==>
                 && req.ref != "" && req.baskets != []
                 && forall k :: 0 <= k < |req.baskets| ==> SomeLines(req.baskets[k].lines))
            && out.state == if out.reply.Ok? then s.(sessions := s.sessions[sid := Pricing(req, 0, 0, map[])]) else s
  {
  }

  ghost predicate SomeLines(lines: seq<Line>) {
    lines != [] && forall i :: 0 <= i < |lines| ==> lines[i].quantity >= 1 && lines[i].price >= 0
  }

  /** Once every store's lines are priced, the orders are written exactly when each store's lines come
      to more than nothing and a pick-up carries no fee: one order per store, all on the checkout's
      reference, and nothing else changes. Either way the checkout is over. */
  lemma PlacingExact(s: State, sid: SessionId, ids: seq<OrderId>)
    requires sid in s.sessions && s.sessions[sid].Pricing? && s.sessions[sid].k >= |s.sessions[sid].req.baskets|
    requires |ids| == |s.sessions[sid].req.baskets| && FreshIds(s.orders, ids)
    ensures var req := s.sessions[sid].req;
            var out := PlaceOrdersStep(s, sid, ids);
            && (out.reply.Ok? <==>
                 && (req.isPickup ==> req.fee == 0)
                 && forall k :: 0 <= k < |req.baskets| ==> LinesTotal(req.baskets[k].lines) > 0)
            && (if out.reply.Ok? then
                  && AllPlaced(s.orders, out.state.orders, req, ids, s.now)
                  && out.state.index == s.index[req.ref := RowsOf(s.index, req.ref) + ids]
                else
                  out.state.orders == s.orders && out.state.index == s.index)
            && out.state.sessions == s.sessions - {sid}
  {
    var req := s.sessions[sid].req;
    InsertableIs(req);
    InsertedColumns(s.orders, req, ids, s.now);
    hide Insertable, InsertOrders, AllPlaced, LinesTotal, FreshIds, InsertError;
  }

  // ---------- A checkout's orders, later ----------

  /** Each order is still its store's, for that store's lines and its part of the fee. */
  ghost predicate ForStores(orders: map<OrderId, Order>, req: Checkout, ids: seq<OrderId>)
    requires |ids| == |req.baskets|
  {
    forall k :: 0 <= k < |ids| ==>
      && ids[k] in orders && orders[ids[k]].store == req.baskets[k].store
      && orders[ids[k]].fee == (if k == 0 then req.fee else 0)
      && orders[ids[k]].total == LinesTotal(req.baskets[k].lines) + (if k == 0 then req.fee else 0)
  }

  lemma PlacedForStores(before: map<OrderId, Order>, after: map<OrderId, Order>, req: Checkout, ids: seq<OrderId>,
                        now: int)
    requires |ids| == |req.baskets| && AllPlaced(before, after, req, ids, now)
    ensures ForStores(after, req, ids)
  {
    hide LinesTotal;
  }

  lemma StillForStores(x: map<OrderId, Order>, y: map<OrderId, Order>, req: Checkout, ids: seq<OrderId>)
    requires |ids| == |req.baskets| && ForStores(x, req, ids) && OrdersFollow(x, y)
    ensures ForStores(y, req, ids)
  {
    hide LinesTotal;
    forall k | 0 <= k < |ids| ensures ids[k] in y && OrderFollows(x[ids[k]], y[ids[k]]) {
    }
  }

  /** A checkout placed alone on its reference, at any point of a disciplined run after it. */
  lemma {:induction false} LaterOn(p: State, sid: SessionId, ids: seq<OrderId>, q: State, later: seq<Step>)
    requires Kept(p) && PlaceOrdersStep(p, sid, ids).reply.Ok? && q == PlaceOrdersStep(p, sid, ids).state
    requires sid in p.sessions && p.sessions[sid].Pricing? && RowsOf(p.index, p.sessions[sid].req.ref) == []
    requires Disciplined(p, PlaceOrders(sid, ids)) && DisciplinedRun(q, later)
    requires RowsOf(Run(q, later).index, p.sessions[sid].req.ref) == ids
    ensures var req, t := p.sessions[sid].req, Run(q, later);
            && Kept(t) && Together(t, req.ref, ids)
            && |ids| == |req.baskets| && ids != [] && ForStores(t.orders, req, ids)
  {
    hide *;
    var req := p.sessions[sid].req;
    PlaceKept(p, sid, ids);
    PlacedTogether(p, sid, ids);
    InsertedColumns(p.orders, req, ids, p.now);
    PlacedForStores(p.orders, q.orders, req, ids, p.now);
    RunTogether(q, later, req.ref, ids);
    RunKept(q, later);
    KeptGives(q);
    RunOk(q, later);
    StillForStores(q.orders, Run(q, later).orders, req, ids);
  }

  // ---------- The credits of one order are its store's ----------

  lemma {:induction false} OneStoresCredit(l: seq<Entry>, id: OrderId, owner: StoreId, store: StoreId)
    requires forall i :: 0 <= i < |l| && l[i].order == Some(id) ==> l[i].store == owner
    ensures CreditUnder(l, store, id) == if store == owner then Total(HeldOn(id), l) + Total(PaidOn(id), l) else 0
  {
    if l != [] {
      forall i | 0 <= i < |l[1..]| && l[1..][i].order == Some(id) ensures l[1..][i].store == owner {
        assert l[1..][i] == l[i + 1];
      }
      OneStoresCredit(l[1..], id, owner, store);
    }
  }

  lemma RowsAreOwn(t: State, id: OrderId)
    requires RowsOk(t.orders, t.index, t.ledger) && id in t.orders
    ensures forall i :: 0 <= i < |t.ledger| && t.ledger[i].order == Some(id) ==> t.ledger[i].store == t.orders[id].store
  {
    forall i | 0 <= i < |t.ledger| && t.ledger[i].order == Some(id) ensures t.ledger[i].store == t.orders[id].store {
      assert OwnCredit(t.ledger[i], t.orders);
    }
  }

  lemma LiveShare(o: Order, held: int, paidOut: int, rows: int, n: int)
    requires Account(o, held, paidOut, rows, n) && o.paid.Some? && o.refunds == []
    ensures held + paidOut == o.total - (if n == 1 then 0 else o.fee)
  {
  }

  /** The `k`th order's credit, store by store. */
  lemma OrdersCredit(t: State, req: Checkout, ids: seq<OrderId>, store: StoreId, k: nat)
    requires Kept(t) && Together(t, req.ref, ids) && |ids| == |req.baskets| && ForStores(t.orders, req, ids)
    requires AllPaid(t.orders, ids) && ids != [] && k < |ids|
    requires ids[k] in t.orders && t.orders[ids[k]].refunds == []
    ensures CreditUnder(t.ledger, store, ids[k]) ==
            if req.baskets[k].store == store
            then LinesTotal(req.baskets[k].lines) + (if |ids| == 1 then req.fee else 0) else 0
  {
    hide *;
    KeptGives(t);
    TogetherGives(t, req.ref, ids);
    PaidOfAll(t.orders, ids);
    PaidIsPaying(t, req.ref);
    PaidAccountOf(t, req.ref, ids, k);
    RowsAreOwn(t, ids[k]);
    OneStoresCredit(t.ledger, ids[k], t.orders[ids[k]].store, store);
    LiveShare(t.orders[ids[k]], Total(HeldOn(ids[k]), t.ledger), Total(PaidOn(ids[k]), t.ledger),
              Total(RowsOn(ids[k]), t.ledger), |ids|);
    ForStore(t.orders, req, ids, k);
  }

  lemma ForStore(orders: map<OrderId, Order>, req: Checkout, ids: seq<OrderId>, k: nat)
    requires |ids| == |req.baskets| && ForStores(orders, req, ids) && k < |ids|
    ensures ids[k] in orders && orders[ids[k]].store == req.baskets[k].store
    ensures orders[ids[k]].fee == (if k == 0 then req.fee else 0)
    ensures orders[ids[k]].total == LinesTotal(req.baskets[k].lines) + (if k == 0 then req.fee else 0)
  {
  }

  lemma {:induction false} SharesAddUp(t: State, req: Checkout, ids: seq<OrderId>, store: StoreId, n: nat)
    requires Kept(t) && Together(t, req.ref, ids) && |ids| == |req.baskets| && ForStores(t.orders, req, ids)
    requires AllPaid(t.orders, ids) && ids != [] && n <= |ids|
    requires forall i :: 0 <= i < |ids| ==> ids[i] in t.orders && t.orders[ids[i]].refunds == []
    ensures CreditsUnder(t.ledger, store, ids[..n])
         == StoreLines(req.baskets[..n], store)
            + (if n == 1 && |ids| == 1 && req.baskets[0].store == store then req.fee else 0)
    decreases n
  {
    hide Kept, Together, AllPaid, ForStores, CreditUnder, LinesTotal;
    if n > 0 {
      assert ids[..n][..n - 1] == ids[..n - 1] && req.baskets[..n][..n - 1] == req.baskets[..n - 1];
      SharesAddUp(t, req, ids, store, n - 1);
      OrdersCredit(t, req, ids, store, n - 1);
    }
  }

  /** To each store its own. Take a checkout of any number of stores alone on its reference, and any
      disciplined run after it. Once it has been paid for, and until something is refunded, the
      ledger credits each store with exactly the lines it sold, and a lone order's store with the
      delivery fee too. */
  lemma {:induction false} StoreSplit(s: State, steps: seq<Step>, sid: SessionId, ids: seq<OrderId>, later: seq<Step>,
                                      store: StoreId)
    requires Unused(s) && DisciplinedRun(s, steps)
    requires var p := Run(s, steps);
             && sid in p.sessions && p.sessions[sid].Pricing? && PlaceOrdersStep(p, sid, ids).reply.Ok?
             && RowsOf(p.index, p.sessions[sid].req.ref) == []
             && Disciplined(p, PlaceOrders(sid, ids))
             && DisciplinedRun(PlaceOrdersStep(p, sid, ids).state, later)
    requires var t := Run(PlaceOrdersStep(Run(s, steps), sid, ids).state, later);
             && RowsOf(t.index, Run(s, steps).sessions[sid].req.ref) == ids
             && (exists i :: 0 <= i < |ids| && ids[i] in t.orders && t.orders[ids[i]].paid.Some?)
             && (forall i :: 0 <= i < |ids| && ids[i] in t.orders ==> t.orders[ids[i]].refunds == [])
    ensures var t := Run(PlaceOrdersStep(Run(s, steps), sid, ids).state, later);
            CreditsUnder(t.ledger, store, ids) == StoreShare(Run(s, steps).sessions[sid].req, store)
  {
    hide *;
    var p := Run(s, steps);
    var q, req := PlaceOrdersStep(p, sid, ids).state, p.sessions[sid].req;
    var t := Run(q, later);
    UnusedKept(s);
    RunKept(s, steps);
    LaterOn(p, sid, ids, q, later);
    TogetherGives(t, req.ref, ids);
    OnePaid(t.orders, ids);
    SharesAddUp(t, req, ids, store, |ids|);
    assert ids[..|ids|] == ids && req.baskets[..|ids|] == req.baskets;
    ShareIs(req, store);
  }

  lemma ShareIs(req: Checkout, store: StoreId)
    ensures StoreShare(req, store) == StoreLines(req.baskets, store)
            + (if |req.baskets| == 1 && req.baskets[0].store == store then req.fee else 0)
  {
  }

  // ---------- At the moment of payment ----------

  /** What a confirmation would credit this store with, order by order. */
  function Owed(orders: map<OrderId, Order>, store: StoreId, lone: bool): map<OrderId, Order> {
    map id | id in orders ::
      orders[id].(total := if orders[id].store == store then CreditAmount(orders[id], lone) else 0)
  }

  lemma OneHeld(s: State, ref: Ref, id: OrderId, lone: bool, store: StoreId)
    requires RowsOk(s.orders, s.index, s.ledger) && Matched(s.orders, s.ledger)
    requires AwaitsPayment(s.orders, id) && s.orders[id].ref == ref
    ensures Total(HeldBy(store), PayOne(s, ref, id, lone).ledger)
         == Total(HeldBy(store), s.ledger) + Owed(s.orders, store, lone)[id].total
  {
    FreeReference(s, id, lone);
    var e := CreditRow(s.orders[id], id, ref, lone);
    TotalAppend(HeldBy(store), s.ledger, e);
    assert Insert(s.ledger, e) == s.ledger + [e];
    hide Total, Insert, RedeemAll, CreditAmount, Matched, RowsOk;
  }

  lemma OthersAwait(s: State, ref: Ref, rows: seq<OrderId>, lone: bool, store: StoreId)
    requires rows != [] && NoDuplicates(rows)
    requires forall i :: 0 <= i < |rows| ==> AwaitsPayment(s.orders, rows[i]) && s.orders[rows[i]].ref == ref
    ensures var t := PayOne(s, ref, rows[0], lone);
            && (forall i :: 0 <= i < |rows[1..]| ==>
                  AwaitsPayment(t.orders, rows[1..][i]) && t.orders[rows[1..][i]].ref == ref)
            && NoDuplicates(rows[1..])
            && SumTotals(Owed(t.orders, store, lone), rows[1..]) == SumTotals(Owed(s.orders, store, lone), rows[1..])
  {
    var t := PayOne(s, ref, rows[0], lone);
    forall i | 0 <= i < |rows[1..]|
      ensures rows[1..][i] in t.orders && t.orders[rows[1..][i]] == s.orders[rows[1..][i]]
    {
      assert rows[1..][i] == rows[i + 1] != rows[0];
    }
    hide PayOne, CreditAmount;
    SumUnmoved(Owed(t.orders, store, lone), Owed(s.orders, store, lone), rows[1..]);
  }

  lemma FirstOwed(orders: map<OrderId, Order>, rows: seq<OrderId>, store: StoreId, lone: bool)
    requires rows != [] && rows[0] in orders
    ensures SumTotals(Owed(orders, store, lone), rows)
         == Owed(orders, store, lone)[rows[0]].total + SumTotals(Owed(orders, store, lone), rows[1..])
  {
    hide CreditAmount;
  }

  lemma NothingOwed(orders: map<OrderId, Order>)
    ensures SumTotals(orders, []) == 0
  {
  }

  lemma {:induction false} AllHeld(s: State, ref: Ref, rows: seq<OrderId>, lone: bool, store: StoreId)
    requires RowsOk(s.orders, s.index, s.ledger) && Matched(s.orders, s.ledger) && NoDuplicates(rows)
    requires forall i :: 0 <= i < |rows| ==> AwaitsPayment(s.orders, rows[i]) && s.orders[rows[i]].ref == ref
    ensures Total(HeldBy(store), PayAll(s, ref, rows, lone).ledger)
         == Total(HeldBy(store), s.ledger) + SumTotals(Owed(s.orders, store, lone), rows)
    decreases |rows|
  {
    if rows != [] { AwaitingIs(s.orders, rows[0]); }
    hide *;
    if rows == [] {
      PayNone(s, ref, rows, lone);
      NothingOwed(Owed(s.orders, store, lone));
    } else {
      var next := PayOne(s, ref, rows[0], lone);
      PayStep(s, ref, rows, lone);
      OneHeld(s, ref, rows[0], lone, store);
      PayOneOk(s, ref, rows[0], lone);
      PayOneMatchedRows(s, ref, rows[0], lone);
      OthersAwait(s, ref, rows, lone, store);
      FirstOwed(s.orders, rows, store, lone);
      AllHeld(next, ref, rows[1..], lone, store);
    }
  }

  lemma {:induction false} OwedAddsUp(orders: map<OrderId, Order>, req: Checkout, ids: seq<OrderId>, store: StoreId,
                                      n: nat)
    requires |ids| == |req.baskets| && ForStores(orders, req, ids) && n <= |ids|
    ensures SumTotals(Owed(orders, store, |ids| == 1), ids[..n])
         == StoreLines(req.baskets[..n], store)
            + (if n == 1 && |ids| == 1 && req.baskets[0].store == store then req.fee else 0)
    decreases n
  {
    hide SumTotals, LinesTotal;
    var owed := Owed(orders, store, |ids| == 1);
    if n == 0 {
      NothingOwed(owed);
      assert ids[..0] == [];
    } else {
      assert ids[..n] == ids[..n - 1] + [ids[n - 1]] && req.baskets[..n][..n - 1] == req.baskets[..n - 1];
      OwedAddsUp(orders, req, ids, store, n - 1);
      SumLast(owed, ids[..n - 1], ids[n - 1]);
    }
  }

  /** The rows a confirmation in flight has read are the checkout's orders, all unpaid. */
  lemma CallIsFor(u: State, call: SessionId, ref: Ref, ids: seq<OrderId>)
    requires Kept(u) && Together(u, ref, ids) && NonePaid(u.orders, ids) && ids != []
    requires call in u.sessions && u.sessions[call].Confirming? && u.sessions[call].ref == ref
    ensures var c := u.sessions[call];
            && multiset(c.rows) == multiset(ids) && c.lone == (|ids| == 1) && NoDuplicates(c.rows)
            && forall i :: 0 <= i < |c.rows| ==> AwaitsPayment(u.orders, c.rows[i]) && u.orders[c.rows[i]].ref == ref
  {
    hide *;
    var c := u.sessions[call];
    KeptGives(u);
    TogetherGives(u, ref, ids);
    ReadAll(u.sessions, call, ref, ids);
    CommitFacts(u, call);
    CallReads(u, call);
    RowsThere(u.orders, u.index, ref);
    WholePrefix(Paying(u.orders, u.index, u.charges, ref), ids, c.rows);
    SameNoDuplicates(ids, c.rows);
    forall i | 0 <= i < |c.rows| ensures AwaitsPayment(u.orders, c.rows[i]) && u.orders[c.rows[i]].ref == ref {
      assert c.rows[i] in multiset(ids);
      UnpaidAwaits(u, ids, c.rows[i]);
    }
  }

  lemma CallReads(u: State, call: SessionId)
    requires CallsKept(u) && call in u.sessions && u.sessions[call].Confirming?
    ensures var c := u.sessions[call];
            multiset(c.rows) == multiset(Paying(u.orders, u.index, u.charges, c.ref)) && c.lone == (|c.rows| == 1)
    ensures Paying(u.orders, u.index, u.charges, u.sessions[call].ref) <= RowsOf(u.index, u.sessions[call].ref)
  {
    hide Paying;
    assert CallKept(u.sessions[call], u.orders, u.index, u.charges);
  }

  lemma NotInPrefix(paying: seq<OrderId>, ids: seq<OrderId>)
    requires paying <= ids && |paying| < |ids| && NoDuplicates(ids)
    ensures ids[|paying|] !in paying
  {
    forall j | 0 <= j < |paying| ensures paying[j] != ids[|paying|] {
      assert paying[j] == ids[j];
    }
  }

  lemma WholePrefix(paying: seq<OrderId>, ids: seq<OrderId>, read: seq<OrderId>)
    requires paying <= ids && NoDuplicates(ids) && multiset(read) == multiset(paying)
    requires forall id :: id in ids ==> id in read
    ensures multiset(read) == multiset(ids) && |read| == |ids|
  {
    forall id | id in ids ensures id in paying {
      assert id in multiset(read) && id in multiset(paying);
    }
    if |paying| < |ids| { NotInPrefix(paying, ids); }
    assert paying == ids[..|paying|] && ids[..|ids|] == ids;
    assert |multiset(read)| == |read| && |multiset(paying)| == |paying|;
  }

  lemma UnpaidAwaits(u: State, ids: seq<OrderId>, id: OrderId)
    requires Accounts(u.orders, u.index, u.charges, u.ledger) && NonePaid(u.orders, ids) && id in ids
    ensures AwaitsPayment(u.orders, id)
  {
    AccountAt(u, id);
    hide Accounts, Paying, Total;
  }

  /** What a store holds rises, when a checkout is paid for, by exactly its share of it. Take a
      checkout of any number of stores alone on its reference, any disciplined run after it, and the
      commit of any confirmation of it while it is unpaid, whenever that confirmation read its rows. */
  lemma {:induction false} PaymentHolds(s: State, steps: seq<Step>, sid: SessionId, ids: seq<OrderId>,
                                        later: seq<Step>, call: SessionId, store: StoreId)
    requires Unused(s) && DisciplinedRun(s, steps)
    requires var p := Run(s, steps);
             && sid in p.sessions && p.sessions[sid].Pricing? && PlaceOrdersStep(p, sid, ids).reply.Ok?
             && RowsOf(p.index, p.sessions[sid].req.ref) == []
             && Disciplined(p, PlaceOrders(sid, ids))
             && DisciplinedRun(PlaceOrdersStep(p, sid, ids).state, later)
    requires var u := Run(PlaceOrdersStep(Run(s, steps), sid, ids).state, later);
             && RowsOf(u.index, Run(s, steps).sessions[sid].req.ref) == ids
             && (exists i :: 0 <= i < |ids| && ids[i] in u.orders && u.orders[ids[i]].paid.None?)
             && call in u.sessions && u.sessions[call].Confirming?
             && u.sessions[call].ref == Run(s, steps).sessions[sid].req.ref
    ensures var u := Run(PlaceOrdersStep(Run(s, steps), sid, ids).state, later);
            Total(HeldBy(store), CommitConfirmStep(u, call).state.ledger)
            == Total(HeldBy(store), u.ledger) + StoreShare(Run(s, steps).sessions[sid].req, store)
  {
    hide *;
    var p := Run(s, steps);
    var q, req := PlaceOrdersStep(p, sid, ids).state, p.sessions[sid].req;
    var u := Run(q, later);
    UnusedKept(s);
    RunKept(s, steps);
    LaterOn(p, sid, ids, q, later);
    TogetherGives(u, req.ref, ids);
    OneUnpaid(u.orders, ids);
    CommitHolds(u, call, req, ids, store);
    ShareIs(req, store);
  }

  lemma OneUnpaid(orders: map<OrderId, Order>, ids: seq<OrderId>)
    requires AllPaid(orders, ids) || NonePaid(orders, ids)
    requires exists i :: 0 <= i < |ids| && ids[i] in orders && orders[ids[i]].paid.None?
    ensures NonePaid(orders, ids)
  {
  }

  lemma CommitHolds(u: State, call: SessionId, req: Checkout, ids: seq<OrderId>, store: StoreId)
    requires Kept(u) && Together(u, req.ref, ids) && NonePaid(u.orders, ids) && ids != []
    requires |ids| == |req.baskets| && ForStores(u.orders, req, ids)
    requires call in u.sessions && u.sessions[call].Confirming? && u.sessions[call].ref == req.ref
    ensures Total(HeldBy(store), CommitConfirmStep(u, call).state.ledger)
         == Total(HeldBy(store), u.ledger) + StoreLines(req.baskets, store)
            + (if |req.baskets| == 1 && req.baskets[0].store == store then req.fee else 0)
  {
    hide *;
    var c := u.sessions[call];
    KeptGives(u);
    CallIsFor(u, call, req.ref, ids);
    CommitIs(u, call);
    ClosedSame(u, call);
    AllHeld(Close(u, call), req.ref, c.rows, c.lone, store);
    SumPermutation(Owed(u.orders, store, c.lone), c.rows, ids);
    OwedAddsUp(u.orders, req, ids, store, |ids|);
    assert ids[..|ids|] == ids && req.baskets[..|ids|] == req.baskets;
  }

  lemma ClosedSame(u: State, call: SessionId)
    ensures var b := Close(u, call); b.orders == u.orders && b.index == u.index && b.ledger == u.ledger
  {
  }
}
