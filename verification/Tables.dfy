/** What the orders, their index and the ledger keep in every interleaving of every handler. */
module Tables {
  import opened Base
  import opened Ledger
  import opened Orders
  import opened Market

  // ---------- The invariant ----------

  ghost predicate OrdersShape(orders: map<OrderId, Order>) {
    forall id :: id in orders ==> OrderShape(orders[id])
  }

  /** The index lists each order once, under its own reference. */
  ghost predicate Indexed(orders: map<OrderId, Order>, index: map<Ref, seq<OrderId>>) {
    && (forall r :: r in index ==> NoDuplicates(index[r]))
    && (forall r, i :: r in index && 0 <= i < |index[r]| ==> index[r][i] in orders && orders[index[r][i]].ref == r)
    && (forall id :: id in orders ==> orders[id].ref in index && id in index[orders[id].ref])
  }

  /** A row of an order is that order's own credit: its reference, its store, an amount the
      confirmation computes, a payment behind it, and a reason if it was released. */
  ghost predicate OwnCredit(e: Entry, orders: map<OrderId, Order>) {
    e.order.Some? ==>
      var id := e.order.value;
      && id in orders
      && e.reference == CreditRef(orders[id].ref, id)
      && e.store == orders[id].store
      && (e.amount == orders[id].total || e.amount == orders[id].total - orders[id].fee)
      && orders[id].paid.Some?
      && (e.status.Completed? ==> orders[id].reasons != {})
  }

  ghost predicate Credits(orders: map<OrderId, Order>, l: seq<Entry>) {
    && UniqueReferences(l)
    && OrderRowsSane(l)
    && forall i :: 0 <= i < |l| ==> OwnCredit(l[i], orders)
  }

  ghost predicate ConfirmsOwn(sessions: map<SessionId, Session>, orders: map<OrderId, Order>) {
    forall sid, i :: sid in sessions && sessions[sid].Confirming? && 0 <= i < |sessions[sid].rows| ==>
      sessions[sid].rows[i] in orders && orders[sessions[sid].rows[i]].ref == sessions[sid].ref
  }

  ghost predicate PricesValid(sessions: map<SessionId, Session>) {
    forall sid :: sid in sessions && sessions[sid].Pricing? ==> ValidRequest(sessions[sid].req)
  }

  /** The three tables, whatever is in flight. */
  ghost predicate RowsOk(orders: map<OrderId, Order>, index: map<Ref, seq<OrderId>>, l: seq<Entry>) {
    OrdersShape(orders) && Indexed(orders, index) && Credits(orders, l)
  }

  ghost predicate TablesOk(s: State) {
    && RowsOk(s.orders, s.index, s.ledger)
    && ConfirmsOwn(s.sessions, s.orders)
    && PricesValid(s.sessions)
  }

  /** Every order of `before` is still in `after`, as a later state of itself. */
  ghost predicate OrdersFollow(before: map<OrderId, Order>, after: map<OrderId, Order>) {
    forall id :: id in before ==> id in after && OrderFollows(before[id], after[id])
  }

  // ---------- Moving one table ----------

  lemma IndexStable(before: map<OrderId, Order>, after: map<OrderId, Order>, index: map<Ref, seq<OrderId>>)
    requires Indexed(before, index)
    requires after.Keys == before.Keys && OrdersFollow(before, after)
    ensures Indexed(after, index)
  {
  }

  lemma ConfirmsStable(sessions: map<SessionId, Session>, before: map<OrderId, Order>, after: map<OrderId, Order>)
    requires ConfirmsOwn(sessions, before) && OrdersFollow(before, after)
    ensures ConfirmsOwn(sessions, after)
  {
  }

  lemma CreditsStable(before: map<OrderId, Order>, after: map<OrderId, Order>, l: seq<Entry>)
    requires Credits(before, l) && OrdersFollow(before, after)
    ensures Credits(after, l)
  {
    forall i | 0 <= i < |l| ensures OwnCredit(l[i], after) {
      assert OwnCredit(l[i], before);
      if l[i].order.Some? {
        assert OrderFollows(before[l[i].order.value], after[l[i].order.value]);
      }
    }
  }

  lemma ApplyFollows(l: seq<Entry>, id: OrderId, fx: Effect)
    requires OrderRowsSane(l)
    ensures LedgerFollows(l, Apply(l, id, fx))
  {
  }

  /** Updating one order's rows keeps them its own, provided a release left a reason behind. */
  lemma ApplyCredits(orders: map<OrderId, Order>, l: seq<Entry>, id: OrderId, fx: Effect)
    requires Credits(orders, l) && id in orders
    requires fx.Release? ==> orders[id].reasons != {}
    ensures Credits(orders, Apply(l, id, fx))
  {
    var r := Apply(l, id, fx);
    ApplySane(l, id, fx);
    SameReferences(l, id, fx);
    hide Apply, UniqueReferences, OrderRowsSane, CreditRef;
    forall i | 0 <= i < |r| ensures OwnCredit(r[i], orders) {
      assert OwnCredit(l[i], orders) && r[i] == Shift(l[i], id, fx);
    }
  }

  lemma SameReferences(l: seq<Entry>, id: OrderId, fx: Effect)
    requires UniqueReferences(l)
    ensures UniqueReferences(Apply(l, id, fx))
  {
    var r := Apply(l, id, fx);
    hide Apply;
    forall i, j | 0 <= i < j < |r| ensures r[i].reference != r[j].reference {
      assert r[i].reference == l[i].reference && r[j].reference == l[j].reference;
    }
  }

  lemma InsertCredits(orders: map<OrderId, Order>, l: seq<Entry>, e: Entry)
    requires Credits(orders, l) && OwnCredit(e, orders) && e.amount > 0
    requires e.order.Some? ==> e.kind.Credit? && e.status.Held?
    requires e.order.None? ==> e.status.Completed?
    ensures Credits(orders, Insert(l, e))
    ensures LedgerFollows(l, Insert(l, e))
  {
    var r := Insert(l, e);
    forall i, j | 0 <= i < j < |r| ensures r[i].reference != r[j].reference {
      if j == |l| { assert r[i] == l[i]; }
    }
    forall i | 0 <= i < |r| ensures OwnCredit(r[i], orders) {
      if i < |l| { assert r[i] == l[i]; }
    }
  }

  /** Writing one order's row, and updating its ledger rows, keeps the tables. */
  lemma WriteOk(orders: map<OrderId, Order>, index: map<Ref, seq<OrderId>>, l: seq<Entry>,
                id: OrderId, o: Order, fx: Effect)
    requires RowsOk(orders, index, l)
    requires id in orders && OrderFollows(orders[id], o) && OrderShape(o)
    requires fx.Release? ==> o.reasons != {}
    ensures RowsOk(orders[id := o], index, Apply(l, id, fx))
    ensures OrdersFollow(orders, orders[id := o])
    ensures orders[id := o].Keys == orders.Keys
    ensures LedgerFollows(l, Apply(l, id, fx))
  {
    var after := orders[id := o];
    assert OrdersFollow(orders, after);
    IndexStable(orders, after, index);
    CreditsStable(orders, after, l);
    ApplyCredits(after, l, id, fx);
    ApplyFollows(l, id, fx);
  }

  // ---------- Steps ----------

  lemma ActOnOk(s: State, id: OrderId, m: Move)
    requires RowsOk(s.orders, s.index, s.ledger)
    ensures var t := ActOn(s, id, m).state;
            && RowsOk(t.orders, t.index, t.ledger)
            && OrdersFollow(s.orders, t.orders)
            && LedgerFollows(s.ledger, t.ledger)
            && t == s.(orders := t.orders, ledger := t.ledger)
            && t.orders.Keys == s.orders.Keys
  {
    if id in s.orders {
      var o := s.orders[id];
      var held := HasHeld(s.ledger, id);
      assert OrderShape(o);
      ActFollows(o, m, s.now, held);
      ActShape(o, m, s.now, held);
      if Act(o, m, s.now, held).fx.Release? { ReleaseHasReason(o, m, s.now, held); }
      WriteOk(s.orders, s.index, s.ledger, id, Act(o, m, s.now, held).order, Act(o, m, s.now, held).fx);
      hide *;
      ActOnIs(s, id, m);
    } else {
      LedgerFollowsItself(s.ledger);
    }
  }

  lemma ActOnIs(s: State, id: OrderId, m: Move)
    requires id in s.orders
    ensures var r := Act(s.orders[id], m, s.now, HasHeld(s.ledger, id));
            ActOn(s, id, m).state == s.(orders := s.orders[id := r.order], ledger := Apply(s.ledger, id, r.fx))
  {
    hide Act, HasHeld, Apply;
  }

  lemma PayOneOk(s: State, ref: Ref, id: OrderId, lone: bool)
    requires RowsOk(s.orders, s.index, s.ledger)
    requires id in s.orders && s.orders[id].ref == ref
    ensures var t := PayOne(s, ref, id, lone);
            && RowsOk(t.orders, t.index, t.ledger)
            && OrdersFollow(s.orders, t.orders)
            && LedgerFollows(s.ledger, t.ledger)
            && t == s.(orders := t.orders, ledger := t.ledger, offers := t.offers)
            && t.orders.Keys == s.orders.Keys
  {
    if AwaitsPayment(s.orders, id) {
      var o := s.orders[id];
      assert OrderShape(o);
      var paid := o.(status := Confirmed, paid := Some(s.now));
      var e := CreditRow(o, id, ref, lone);
      var orders := s.orders[id := paid];
      assert OwnCredit(e, orders) && OrderFollows(o, paid) && OrderShape(paid);
      hide RowsOk, OrdersFollow, LedgerFollows, OrderShape, OrderFollows, RedeemAll, OwnCredit, CreditRow;
      WriteOk(s.orders, s.index, s.ledger, id, paid, Keep);
      KeepChangesNothing(s.ledger, id);
      PaidRows(orders, s.index, s.ledger, e);
    } else {
      Holds(s.orders, s.index, s.ledger);
    }
  }

  lemma Holds(orders: map<OrderId, Order>, index: map<Ref, seq<OrderId>>, l: seq<Entry>)
    requires RowsOk(orders, index, l)
    ensures OrdersFollow(orders, orders) && LedgerFollows(l, l)
  {
    LedgerFollowsItself(l);
  }

  lemma PaidRows(orders: map<OrderId, Order>, index: map<Ref, seq<OrderId>>, l: seq<Entry>, e: Entry)
    requires RowsOk(orders, index, l) && OwnCredit(e, orders) && e.amount > 0
    requires e.order.Some? && e.kind.Credit? && e.status.Held?
    ensures RowsOk(orders, index, Insert(l, e)) && LedgerFollows(l, Insert(l, e))
  {
    hide Indexed, OrdersShape, OwnCredit;
    InsertCredits(orders, l, e);
  }

  lemma {:induction false} PayAllOk(s: State, ref: Ref, rows: seq<OrderId>, lone: bool)
    requires RowsOk(s.orders, s.index, s.ledger)
    requires forall i :: 0 <= i < |rows| ==> rows[i] in s.orders && s.orders[rows[i]].ref == ref
    ensures var t := PayAll(s, ref, rows, lone);
            && RowsOk(t.orders, t.index, t.ledger)
            && OrdersFollow(s.orders, t.orders)
            && LedgerFollows(s.ledger, t.ledger)
            && t == s.(orders := t.orders, ledger := t.ledger, offers := t.offers)
            && t.orders.Keys == s.orders.Keys
    decreases |rows|
  {
    if rows == [] {
      LedgerFollowsItself(s.ledger);
    } else {
      var next := PayOne(s, ref, rows[0], lone);
      PayOneOk(s, ref, rows[0], lone);
      PayAllOk(next, ref, rows[1..], lone);
      OrdersFollowTransitive(s.orders, next.orders, PayAll(s, ref, rows, lone).orders);
      LedgerFollowsTransitive(s.ledger, next.ledger, PayAll(s, ref, rows, lone).ledger);
    }
  }

  lemma LedgerFollowsItself(l: seq<Entry>)
    requires OrderRowsSane(l)
    ensures LedgerFollows(l, l)
  {
  }

  lemma OrdersFollowTransitive(a: map<OrderId, Order>, b: map<OrderId, Order>, c: map<OrderId, Order>)
    requires OrdersFollow(a, b) && OrdersFollow(b, c)
    ensures OrdersFollow(a, c)
  {
    forall id | id in a ensures id in c && OrderFollows(a[id], c[id]) {
      assert OrderFollows(a[id], b[id]) && OrderFollows(b[id], c[id]);
    }
  }

  lemma InsertedRow(orders: map<OrderId, Order>, req: Checkout, ids: seq<OrderId>, k: int, now: int, id: OrderId)
    requires 0 <= k <= |ids| == |req.baskets|
    requires FreshIds(orders, ids)
    ensures var r := InsertOrders(orders, req, ids, k, now);
            && (id in r <==> id in orders || id in ids[..k])
            && (id in orders ==> r[id] == orders[id])
            && (forall j :: 0 <= j < k && ids[j] == id ==> r[id] == NewOrder(req, j, now))
  {
    if k > 0 {
      InsertedRow(orders, req, ids, k - 1, now, id);
      assert ids[..k] == ids[..k - 1] + [ids[k - 1]];
    }
  }

  /** Which order each inserted id holds, and that nothing else moved. */
  lemma InsertedRows(orders: map<OrderId, Order>, req: Checkout, ids: seq<OrderId>, now: int)
    requires |ids| == |req.baskets|
    requires FreshIds(orders, ids)
    ensures var r := InsertOrders(orders, req, ids, |ids|, now);
            && r.Keys == orders.Keys + (set id | id in ids)
            && (forall id :: id in orders ==> r[id] == orders[id])
            && (forall j :: 0 <= j < |ids| ==> r[ids[j]] == NewOrder(req, j, now))
  {
    var r := InsertOrders(orders, req, ids, |ids|, now);
    assert ids[..|ids|] == ids;
    forall id: OrderId
      ensures id in r <==> id in orders || id in ids
      ensures id in orders ==> r[id] == orders[id]
      ensures forall j :: 0 <= j < |ids| && ids[j] == id ==> r[id] == NewOrder(req, j, now)
    {
      InsertedRow(orders, req, ids, |ids|, now, id);
    }
  }

  /** What a checkout that goes through leaves: its own orders, and every other as it was. */
  lemma Placed(s: State, sid: SessionId, ids: seq<OrderId>)
    requires PlaceOrdersStep(s, sid, ids).reply.Ok?
    ensures sid in s.sessions && s.sessions[sid].Pricing?
    ensures var req := s.sessions[sid].req;
            var t := PlaceOrdersStep(s, sid, ids).state;
            && |ids| == |req.baskets| && s.sessions[sid].k >= |req.baskets| && t.sessions == s.sessions - {sid}
            && (forall id :: id in s.orders ==> id in t.orders && t.orders[id] == s.orders[id])
            && (forall id :: id in t.orders && id !in s.orders ==>
                  exists j :: 0 <= j < |ids| && ids[j] == id && t.orders[id] == NewOrder(req, j, s.now))
  {
    var req := s.sessions[sid].req;
    InsertedRows(s.orders, req, ids, s.now);
    hide InsertOrders, NewOrder, FreshIds, Insertable;
    var after := PlaceOrdersStep(s, sid, ids).state.orders;
    forall id | id in after && id !in s.orders
      ensures exists j :: 0 <= j < |ids| && ids[j] == id && after[id] == NewOrder(req, j, s.now)
    {
      var j :| 0 <= j < |ids| && ids[j] == id;
      assert after[ids[j]] == NewOrder(req, j, s.now);
    }
  }

  lemma NewOrderShape(req: Checkout, k: int, now: int)
    requires 0 <= k < |req.baskets| && req.ref != "" && Insertable(req)
    ensures OrderShape(NewOrder(req, k, now))
  {
  }

  lemma PlacedIndexed(orders: map<OrderId, Order>, index: map<Ref, seq<OrderId>>, req: Checkout, ids: seq<OrderId>,
                      after: map<OrderId, Order>)
    requires Indexed(orders, index) && FreshIds(orders, ids)
    requires after.Keys == orders.Keys + (set id | id in ids)
    requires forall id :: id in orders ==> after[id] == orders[id]
    requires forall j :: 0 <= j < |ids| ==> after[ids[j]].ref == req.ref
    ensures Indexed(after, index[req.ref := RowsOf(index, req.ref) + ids])
  {
    var was := RowsOf(index, req.ref);
    var now := index[req.ref := was + ids];
    assert NoDuplicates(was + ids);
    hide NoDuplicates, FreshIds;
    forall id | id in after ensures after[id].ref in now && id in now[after[id].ref] {
      assert id in orders ==> orders[id].ref in index && id in index[orders[id].ref];
      assert id !in orders ==> id in ids && after[id].ref == req.ref;
      assert id in was || id in ids ==> id in was + ids;
    }
    forall r, i | r in now && 0 <= i < |now[r]|
      ensures now[r][i] in after && after[now[r][i]].ref == r
    {
      if r == req.ref && i >= |was| {
        assert now[r][i] == ids[i - |was|];
      }
    }
  }

  lemma PlaceOrdersOk(s: State, sid: SessionId, ids: seq<OrderId>)
    requires TablesOk(s)
    ensures var t := PlaceOrdersStep(s, sid, ids).state;
            RowsOk(t.orders, t.index, t.ledger) && OrdersFollow(s.orders, t.orders)
  {
    hide RowsOk, InsertOrders, Insertable, FreshIds, OrderFollows;
    Standing(s);
    if PlaceOrdersStep(s, sid, ids).reply.Ok? { PlacedOk(s, s.sessions[sid].req, ids); }
  }

  lemma PlacedOk(s: State, req: Checkout, ids: seq<OrderId>)
    requires RowsOk(s.orders, s.index, s.ledger)
    requires ValidRequest(req) && Insertable(req) && |ids| == |req.baskets| && FreshIds(s.orders, ids)
    ensures var after := InsertOrders(s.orders, req, ids, |ids|, s.now);
            RowsOk(after, s.index[req.ref := RowsOf(s.index, req.ref) + ids], s.ledger) && OrdersFollow(s.orders, after)
  {
    var after := InsertOrders(s.orders, req, ids, |ids|, s.now);
    PlacedFollow(s.orders, req, ids, s.now);
    InsertedRows(s.orders, req, ids, s.now);
    NewRefs(req, s.now);
    hide InsertOrders, Insertable, Credits, OrdersShape, OrdersFollow, FreshIds;
    CreditsStable(s.orders, after, s.ledger);
    PlacedIndexed(s.orders, s.index, req, ids, after);
    PlacedShapes(s.orders, req, ids, s.now);
  }

  lemma PlacedFollow(orders: map<OrderId, Order>, req: Checkout, ids: seq<OrderId>, now: int)
    requires |ids| == |req.baskets| && FreshIds(orders, ids)
    ensures OrdersFollow(orders, InsertOrders(orders, req, ids, |ids|, now))
  {
    InsertedRows(orders, req, ids, now);
    hide InsertOrders, FreshIds;
  }

  lemma PlacedShapes(orders: map<OrderId, Order>, req: Checkout, ids: seq<OrderId>, now: int)
    requires OrdersShape(orders) && ValidRequest(req) && Insertable(req)
    requires |ids| == |req.baskets| && FreshIds(orders, ids)
    ensures OrdersShape(InsertOrders(orders, req, ids, |ids|, now))
  {
    InsertedRows(orders, req, ids, now);
    assert req.ref != "";
    hide InsertOrders, FreshIds, OrderShape, NewOrder, ValidRequest, Insertable;
    var after := InsertOrders(orders, req, ids, |ids|, now);
    forall id | id in after ensures OrderShape(after[id]) {
      if id !in orders {
        var j :| 0 <= j < |ids| && ids[j] == id;
        NewOrderShape(req, j, now);
      }
    }
  }

  lemma NewRefs(req: Checkout, now: int)
    ensures forall j :: 0 <= j < |req.baskets| ==> NewOrder(req, j, now).ref == req.ref
  {
  }

  lemma AbandonOk(s: State)
    requires RowsOk(s.orders, s.index, s.ledger)
    ensures RowsOk(AbandonAll(s.orders, s.now), s.index, s.ledger)
    ensures OrdersFollow(s.orders, AbandonAll(s.orders, s.now))
  {
    var after := AbandonAll(s.orders, s.now);
    forall id | id in s.orders ensures OrderFollows(s.orders[id], after[id]) && OrderShape(after[id]) {
      assert OrderShape(s.orders[id]);
    }
    IndexStable(s.orders, after, s.index);
    CreditsStable(s.orders, after, s.ledger);
  }

  lemma BeginConfirmOk(s: State, ref: Ref, rows: seq<OrderId>)
    requires Indexed(s.orders, s.index) && multiset(rows) == multiset(RowsOf(s.index, ref))
    ensures forall i :: 0 <= i < |rows| ==> rows[i] in s.orders && s.orders[rows[i]].ref == ref
  {
    forall i | 0 <= i < |rows| ensures rows[i] in s.orders && s.orders[rows[i]].ref == ref {
      assert rows[i] in multiset(rows);
      assert rows[i] in RowsOf(s.index, ref);
    }
  }

  lemma PayOutOk(s: State, store: StoreId, amount: int, token: string)
    requires RowsOk(s.orders, s.index, s.ledger)
    ensures var t := WithdrawStep(s, store, amount, token).state;
            RowsOk(s.orders, s.index, t.ledger) && LedgerFollows(s.ledger, t.ledger)
  {
    LedgerFollowsItself(s.ledger);
    if amount > 0 {
      InsertCredits(s.orders, s.ledger, Entry(store, Debit, amount, "WD_" + token, None, Completed, false));
    }
  }

  lemma DepositOk(s: State, store: StoreId, amount: int, reference: string)
    requires RowsOk(s.orders, s.index, s.ledger)
    ensures var t := DepositStep(s, store, amount, reference).state;
            RowsOk(s.orders, s.index, t.ledger) && LedgerFollows(s.ledger, t.ledger)
  {
    LedgerFollowsItself(s.ledger);
    if amount > 0 {
      InsertCredits(s.orders, s.ledger, Entry(store, Credit, amount, reference, None, Completed, false));
    }
  }

  lemma CommitConfirmOk(s: State, sid: SessionId)
    requires TablesOk(s)
    ensures var t := CommitConfirmStep(s, sid).state;
            RowsOk(t.orders, t.index, t.ledger) && OrdersFollow(s.orders, t.orders) && LedgerFollows(s.ledger, t.ledger)
    ensures CommitConfirmStep(s, sid).state.sessions == s.sessions
         || CommitConfirmStep(s, sid).state.sessions == s.sessions - {sid}
  {
    LedgerFollowsItself(s.ledger);
    if sid in s.sessions && s.sessions[sid].Confirming? {
      var c := s.sessions[sid];
      PayAllOk(Close(s, sid), c.ref, c.rows, c.lone);
    }
  }

  lemma PaidFollows(s: State, id: OrderId)
    requires OrdersShape(s.orders) && AwaitsPayment(s.orders, id)
    ensures OrdersFollow(s.orders, s.orders[id := s.orders[id].(status := Confirmed, paid := Some(s.now))])
  {
    assert OrderShape(s.orders[id]);
  }

  lemma RowsSane(orders: map<OrderId, Order>, index: map<Ref, seq<OrderId>>, l: seq<Entry>)
    requires RowsOk(orders, index, l)
    ensures OrderRowsSane(l)
  {
  }

  lemma SweepOk(s: State, sid: SessionId)
    requires TablesOk(s)
    ensures var t := SweepStep(s, sid).state;
            RowsOk(t.orders, t.index, t.ledger) && OrdersFollow(s.orders, t.orders) && LedgerFollows(s.ledger, t.ledger)
  {
    hide ActOn, RowsOk;
    RowsSane(s.orders, s.index, s.ledger);
    LedgerFollowsItself(s.ledger);
    if sid in s.sessions && s.sessions[sid].Sweeping? && s.sessions[sid].pos < |s.sessions[sid].rows| {
      ActOnOk(s, s.sessions[sid].rows[s.sessions[sid].pos], SweepMark);
      ActOnOk(s, s.sessions[sid].rows[s.sessions[sid].pos], SweepRelease);
    }
  }

  lemma SweepSessions(s: State, sid: SessionId)
    requires TablesOk(s)
    ensures ConfirmsOwn(SweepStep(s, sid).state.sessions, s.orders)
    ensures PricesValid(SweepStep(s, sid).state.sessions)
  {
    hide RowsOk;
    assert ConfirmsOwn(s.sessions, s.orders) && PricesValid(s.sessions);
    hide TablesOk;
    SweepIs(s, sid);
    hide SweepStep;
  }

  lemma SweepIs(s: State, sid: SessionId)
    ensures var after := SweepStep(s, sid).state.sessions;
            if sid in s.sessions && s.sessions[sid].Sweeping? && s.sessions[sid].pos < |s.sessions[sid].rows|
            then
              var w := s.sessions[sid];
              after == s.sessions[sid := Sweeping(w.rows, if w.between then w.pos + 1 else w.pos, !w.between)]
            else
              || after == s.sessions
              || (sid in s.sessions && s.sessions[sid].Sweeping? && after == s.sessions - {sid})
  {
    hide ActOn;
  }

  lemma VendorWritesOk(s: State, id: OrderId, store: StoreId, status: OrderStatus)
    requires TablesOk(s)
    ensures var t := VendorWritesStep(s, id, store, status).state;
            RowsOk(t.orders, t.index, t.ledger) && OrdersFollow(s.orders, t.orders) && LedgerFollows(s.ledger, t.ledger)
  {
    hide ActOn;
    LedgerFollowsItself(s.ledger);
    if id in s.orders { ActOnOk(s, id, VendorSets(store, status, FulfilmentOf(s.orders, id))); }
  }

  lemma Standing(s: State)
    requires TablesOk(s)
    ensures RowsOk(s.orders, s.index, s.ledger)
    ensures OrdersFollow(s.orders, s.orders) && LedgerFollows(s.ledger, s.ledger)
  {
    LedgerFollowsItself(s.ledger);
  }

  lemma OrderStepRows(s: State, a: Step)
    requires TablesOk(s) && (a.VendorWrites? || a.OnOrder? || a.Sweep?)
    ensures var t := Next(s, a).state;
            && RowsOk(t.orders, t.index, t.ledger)
            && OrdersFollow(s.orders, t.orders)
            && LedgerFollows(s.ledger, t.ledger)
  {
    hide *;
    Standing(s);
    OrderStepIs(s, a);
    match a {
      case VendorWrites(id, store, status) => VendorWritesOk(s, id, store, status);
      case OnOrder(id, move) => ActOnOk(s, id, move);
      case Sweep(sid) => SweepOk(s, sid);
    }
  }

  lemma CheckoutStepRows(s: State, a: Step)
    requires TablesOk(s) && (a.PlaceOrders? || a.CommitConfirm? || a.MarkAbandoned?)
    ensures var t := Next(s, a).state;
            && RowsOk(t.orders, t.index, t.ledger)
            && OrdersFollow(s.orders, t.orders)
            && LedgerFollows(s.ledger, t.ledger)
  {
    hide *;
    Standing(s);
    CheckoutStepIs(s, a);
    match a {
      case PlaceOrders(sid, ids) => PlaceOrdersOk(s, sid, ids);
      case CommitConfirm(sid) => CommitConfirmOk(s, sid);
      case MarkAbandoned => AbandonOk(s);
    }
  }

  lemma MoneyStepRows(s: State, a: Step)
    requires TablesOk(s) && (a.PayOut? || a.Deposit?)
    ensures var t := Next(s, a).state;
            && RowsOk(t.orders, t.index, t.ledger)
            && OrdersFollow(s.orders, t.orders)
            && LedgerFollows(s.ledger, t.ledger)
  {
    Standing(s);
    hide CreateOfferStep, BuyerMoveStep, VendorMoveStep, ExpireAll, BeginCheckoutStep, PriceLineStep,
         PlaceOrdersStep, BeginConfirmStep, CommitConfirmStep, AbandonAll, VendorWritesStep, ActOn,
         BeginSweepStep, SweepStep, WithdrawStep, DepositStep, RowsOk, OrdersFollow, LedgerFollows,
         ConfirmsOwn, PricesValid;
    match a
    case PayOut(store, amount, token) => PayOutOk(s, store, amount, token);
    case Deposit(store, amount, reference) => DepositOk(s, store, amount, reference);
  }

  /** A step that writes neither orders nor ledger. */
  ghost predicate Elsewhere(a: Step) {
    || a.Tick? || a.SetProduct? || a.CreateOffer? || a.BuyerMoves? || a.VendorMoves? || a.ExpireOffers?
    || a.BeginCheckout? || a.PriceLine? || a.Charge? || a.BeginConfirm? || a.BeginSweep?
  }

  lemma IsElsewhere(a: Step)
    requires !a.VendorWrites? && !a.OnOrder? && !a.Sweep? && !a.PlaceOrders? && !a.CommitConfirm? && !a.MarkAbandoned?
    requires !a.PayOut? && !a.Deposit?
    ensures Elsewhere(a)
  {
  }

  lemma QuietRows(s: State, a: Step)
    requires Elsewhere(a)
    ensures var t := Next(s, a).state; t.orders == s.orders && t.index == s.index && t.ledger == s.ledger
  {
    hide CreateOfferStep, BuyerMoveStep, VendorMoveStep, ExpireAll, BeginCheckoutStep, PriceLineStep,
         PlaceOrdersStep, BeginConfirmStep, CommitConfirmStep, AbandonAll, VendorWritesStep, ActOn,
         BeginSweepStep, SweepStep, WithdrawStep, DepositStep, RowsOk, OrdersFollow, LedgerFollows,
         ConfirmsOwn, PricesValid;
  }

  /** The rows after one step, and that nothing settled was undone. */
  lemma {:induction false} StepRows(s: State, a: Step)
    requires TablesOk(s)
    ensures var t := Next(s, a).state;
            && RowsOk(t.orders, t.index, t.ledger)
            && OrdersFollow(s.orders, t.orders)
            && LedgerFollows(s.ledger, t.ledger)
  {
    hide Next, TablesOk;
    if a.VendorWrites? || a.OnOrder? || a.Sweep? {
      OrderStepRows(s, a);
    } else if a.PlaceOrders? || a.CommitConfirm? || a.MarkAbandoned? {
      CheckoutStepRows(s, a);
    } else if a.PayOut? || a.Deposit? {
      MoneyStepRows(s, a);
    } else {
      Standing(s);
      QuietRows(s, a);
    }
  }

  lemma BeginConfirmSessions(s: State, sid: SessionId, ref: Ref, rows: seq<OrderId>)
    requires TablesOk(s)
    ensures ConfirmsOwn(BeginConfirmStep(s, sid, ref, rows).state.sessions, s.orders)
    ensures PricesValid(BeginConfirmStep(s, sid, ref, rows).state.sessions)
  {
    hide OrdersShape, Credits;
    if multiset(rows) == multiset(RowsOf(s.index, ref)) { BeginConfirmOk(s, ref, rows); }
  }

  lemma CheckoutSessions(s: State, sid: SessionId, req: Checkout)
    requires TablesOk(s)
    ensures ConfirmsOwn(BeginCheckoutStep(s, sid, req).state.sessions, s.orders)
    ensures PricesValid(BeginCheckoutStep(s, sid, req).state.sessions)
  {
    hide RowsOk, ValidRequest;
  }

  lemma PlaceSessions(s: State, sid: SessionId, ids: seq<OrderId>)
    requires TablesOk(s)
    ensures ConfirmsOwn(PlaceOrdersStep(s, sid, ids).state.sessions, s.orders)
    ensures PricesValid(PlaceOrdersStep(s, sid, ids).state.sessions)
  {
    hide RowsOk, InsertOrders, Insertable, FreshIds, ValidRequest;
  }

  lemma BeginSweepSessions(s: State, sid: SessionId, rows: seq<OrderId>)
    requires TablesOk(s)
    ensures ConfirmsOwn(BeginSweepStep(s, sid, rows).state.sessions, s.orders)
    ensures PricesValid(BeginSweepStep(s, sid, rows).state.sessions)
  {
    hide RowsOk, Overdue, NoDuplicates;
  }

  lemma PricingSessions(s: State, sid: SessionId)
    requires TablesOk(s)
    ensures ConfirmsOwn(PriceLineStep(s, sid).state.sessions, s.orders)
    ensures PricesValid(PriceLineStep(s, sid).state.sessions)
  {
    hide RowsOk, CheckLine, ValidRequest;
  }

  lemma InFlightOk(s: State)
    requires TablesOk(s)
    ensures ConfirmsOwn(s.sessions, s.orders) && PricesValid(s.sessions)
  {
  }

  lemma CommitSessions(s: State, sid: SessionId)
    requires TablesOk(s)
    ensures ConfirmsOwn(CommitConfirmStep(s, sid).state.sessions, s.orders)
    ensures PricesValid(CommitConfirmStep(s, sid).state.sessions)
  {
    hide RowsOk, PayAll;
  }

  lemma CallSessions(s: State, a: Step)
    requires TablesOk(s)
    requires || a.BeginCheckout? || a.PriceLine? || a.PlaceOrders? || a.BeginConfirm? || a.CommitConfirm?
             || a.BeginSweep? || a.Sweep?
    ensures ConfirmsOwn(Next(s, a).state.sessions, s.orders) && PricesValid(Next(s, a).state.sessions)
  {
    if a.PlaceOrders? || a.CommitConfirm? {
      hide *;
      CheckoutStepIs(s, a);
      if a.PlaceOrders? { PlaceSessions(s, a.sid, a.ids); } else { CommitSessions(s, a.sid); }
    } else if a.Sweep? {
      hide *;
      NextSweep(s, a.sid);
      SweepSessions(s, a.sid);
    } else {
      hide *;
      OpeningSessions(s, a);
    }
  }

  lemma OpeningSessions(s: State, a: Step)
    requires TablesOk(s) && (a.BeginCheckout? || a.PriceLine? || a.BeginConfirm? || a.BeginSweep?)
    ensures ConfirmsOwn(Next(s, a).state.sessions, s.orders) && PricesValid(Next(s, a).state.sessions)
  {
    hide TablesOk, ConfirmsOwn, PricesValid, BeginCheckoutStep, PriceLineStep, BeginConfirmStep, BeginSweepStep;
    match a
    case BeginCheckout(sid, req) => CheckoutSessions(s, sid, req);
    case PriceLine(sid) => PricingSessions(s, sid);
    case BeginConfirm(sid, ref, rows) => BeginConfirmSessions(s, sid, ref, rows);
    case BeginSweep(sid, rows) => BeginSweepSessions(s, sid, rows);
  }

  lemma OtherSessions(s: State, a: Step)
    requires !a.BeginCheckout? && !a.PriceLine? && !a.PlaceOrders? && !a.BeginConfirm? && !a.CommitConfirm?
    requires !a.BeginSweep? && !a.Sweep?
    ensures Next(s, a).state.sessions == s.sessions
  {
    hide CreateOfferStep, BuyerMoveStep, VendorMoveStep, ExpireAll, BeginCheckoutStep, PriceLineStep,
         PlaceOrdersStep, BeginConfirmStep, CommitConfirmStep, AbandonAll, VendorWritesStep, ActOn,
         BeginSweepStep, SweepStep, WithdrawStep, DepositStep;
  }

  /** What a step does to the calls in flight. */
  lemma StepSessions(s: State, a: Step)
    requires TablesOk(s) && OrdersFollow(s.orders, Next(s, a).state.orders)
    ensures ConfirmsOwn(Next(s, a).state.sessions, Next(s, a).state.orders)
    ensures PricesValid(Next(s, a).state.sessions)
  {
    hide Next, TablesOk, ConfirmsOwn, PricesValid, OrdersFollow;
    if a.BeginCheckout? || a.PriceLine? || a.PlaceOrders? || a.BeginConfirm? || a.CommitConfirm? || a.BeginSweep?
        || a.Sweep? {
      CallSessions(s, a);
    } else {
      InFlightOk(s);
      OtherSessions(s, a);
    }
    ConfirmsStable(Next(s, a).state.sessions, s.orders, Next(s, a).state.orders);
  }

  /** One step of any handler, in any interleaving, keeps the tables, forgets no order and
      no ledger row, and undoes nothing that was settled. */
  lemma {:induction false} StepOk(s: State, a: Step)
    requires TablesOk(s)
    ensures TablesOk(Next(s, a).state)
    ensures OrdersFollow(s.orders, Next(s, a).state.orders)
    ensures LedgerFollows(s.ledger, Next(s, a).state.ledger)
  {
    StepRows(s, a);
    StepSessions(s, a);
  }

  /** The tables hold in every state any run reaches. */
  lemma {:induction false} RunOk(s: State, steps: seq<Step>)
    requires TablesOk(s)
    ensures TablesOk(Run(s, steps))
    ensures OrdersFollow(s.orders, Run(s, steps).orders)
    ensures LedgerFollows(s.ledger, Run(s, steps).ledger)
    decreases |steps|
  {
    if steps == [] {
      LedgerFollowsItself(s.ledger);
    } else {
      var next := Next(s, steps[0]).state;
      StepOk(s, steps[0]);
      RunOk(next, steps[1..]);
      OrdersFollowTransitive(s.orders, next.orders, Run(s, steps).orders);
      LedgerFollowsTransitive(s.ledger, next.ledger, Run(s, steps).ledger);
    }
  }
}
