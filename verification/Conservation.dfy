/** Every kobo charged is a live vendor credit, a refund, or a delivery fee the platform
    keeps, through every later delivery, release, dispatch and dispute. */
module Conservation {
  import opened Base
  import opened Ledger
  import opened Orders
  import opened Market
  import opened Tables
  import opened Escrow
  import opened Charges
  import opened Frames

  // ---------- One order's account ----------

  /** The part of an order's total that is not its vendor's, when `n` orders share the charge. */
  function Share(o: Order, n: int): int {
    if n == 1 then 0 else o.fee
  }

  /** An order's money against its ledger totals: pending, completed, and number of rows. Unpaid,
      it has none and still awaits payment; paid, it has one credit, worth the vendor's share, or
      it was refunded once, in full, and nothing of the credit lives. */
  ghost predicate Account(o: Order, held: int, paidOut: int, rows: int, n: int) {
    && (o.paid.None? ==> Unpaid(o.status) && rows == 0 && held == 0 && paidOut == 0 && o.refunds == [])
    && (o.paid.Some? ==>
          && rows == 1
          && if o.refunds == [] then held + paidOut == o.total - Share(o, n)
             else o.refunds == [o.total] && held == 0 && paidOut == 0)
  }

  /** A no-show refund does nothing to these, or is refused. */
  ghost predicate OnRoad(status: OrderStatus) {
    status.Shipped? || status.Delivered? || status.Cancelled?
  }

  /** What vendors and administrators have to respect, action by action: they leave unpaid orders
      alone, they refund an order once, and a no-show refund hits only a credit that has not been
      paid out (`paidOut` is its completed part). Everything else is free, and so is whatever the
      code refuses. */
  ghost predicate Proper(o: Order, m: Move, paidOut: int) {
    match m
    case VendorSets(store, status, carrier) =>
      o.store != store || !VendorMaySet(carrier, o.isPickup, status) || o.paid.Some?
    case NoShowRefund(agrees) =>
      OnRoad(o.status) || o.ref == "" || !agrees || (o.paid.Some? && paidOut == 0 && o.refunds == [])
    case DisputeRefund(agrees) =>
      !o.dispute.Reported? || o.ref == "" || !agrees || (o.paid.Some? && o.refunds == [])
    case Ship => o.paid.Some?
    case _ => true
  }

  function HeldAfter(held: int, fx: Effect): int {
    if fx.Keep? then held else 0
  }

  function PaidAfter(held: int, paidOut: int, fx: Effect): int {
    match fx
    case Release => paidOut + held
    case VoidLive => 0
    case _ => paidOut
  }

  /** One proper action keeps the account. */
  lemma ActAccount(o: Order, m: Move, now: int, any: bool, held: int, paidOut: int, rows: int, n: int)
    requires OrderShape(o) && Account(o, held, paidOut, rows, n) && Proper(o, m, paidOut)
    ensures var r := Act(o, m, now, any);
            Account(r.order, HeldAfter(held, r.fx), PaidAfter(held, paidOut, r.fx), rows, n)
  {
  }

  /** The discipline asks for nothing the money does not need: on any order with a sound account,
      an action keeps the account if and only if it is proper. */
  lemma ProperExactly(o: Order, m: Move, now: int, held: int, paidOut: int, rows: int, n: int)
    requires OrderShape(o) && Account(o, held, paidOut, rows, n)
    ensures var r := Act(o, m, now, held > 0);
            Proper(o, m, paidOut)
            <==> Account(r.order, HeldAfter(held, r.fx), PaidAfter(held, paidOut, r.fx), rows, n)
  {
    if Proper(o, m, paidOut) { ActAccount(o, m, now, held > 0, held, paidOut, rows, n); }
  }

  /** The account survives a no-show refund exactly when the credit was not already released:
      the refund voids only a pending credit. */
  lemma NoShowRefundBalances(o: Order, now: int, held: int, paidOut: int, n: int)
    requires o.paid.Some? && !Unpaid(o.status) && o.refunds == [] && o.ref != ""
    requires held + paidOut == o.total - Share(o, n)
    requires !OnRoad(o.status)
    ensures var r := Act(o, NoShowRefund(true), now, true);
            Account(r.order, HeldAfter(held, r.fx), PaidAfter(held, paidOut, r.fx), 1, n) <==> paidOut == 0
  {
  }

  // ---------- The invariant ----------

  ghost predicate AccountOf(orders: map<OrderId, Order>, index: map<Ref, seq<OrderId>>, charges: map<Ref, int>,
                            l: seq<Entry>, id: OrderId)
    requires id in orders
  {
    Account(orders[id], Total(HeldOn(id), l), Total(PaidOn(id), l), Total(RowsOn(id), l),
            |Paying(orders, index, charges, orders[id].ref)|)
  }

  ghost predicate Accounts(orders: map<OrderId, Order>, index: map<Ref, seq<OrderId>>, charges: map<Ref, int>,
                           l: seq<Entry>) {
    forall id :: id in orders ==> AccountOf(orders, index, charges, l, id)
  }

  ghost predicate AllPaid(orders: map<OrderId, Order>, rows: seq<OrderId>) {
    forall i :: 0 <= i < |rows| ==> rows[i] in orders && orders[rows[i]].paid.Some?
  }

  ghost predicate NonePaid(orders: map<OrderId, Order>, rows: seq<OrderId>) {
    forall i :: 0 <= i < |rows| ==> rows[i] in orders && orders[rows[i]].paid.None?
  }

  /** Nothing on a reference is paid for, or exactly the orders its charge covers are. */
  ghost predicate PaidAsOne(orders: map<OrderId, Order>, index: map<Ref, seq<OrderId>>, charges: map<Ref, int>,
                            ref: Ref) {
    var rows, paying := RowsOf(index, ref), Paying(orders, index, charges, ref);
    || NonePaid(orders, rows)
    || (paying != [] && AllPaid(orders, paying) && NonePaid(orders, rows[|paying|..]))
  }

  ghost predicate Charged(s: State) {
    forall ref :: ref in s.index ==> PaidAsOne(s.orders, s.index, s.charges, ref)
  }

  /** A confirmation in flight has read what the charge covers. */
  ghost predicate CallKept(p: Session, orders: map<OrderId, Order>, index: map<Ref, seq<OrderId>>,
                           charges: map<Ref, int>) {
    p.Confirming? ==>
      && p.rows != [] && multiset(p.rows) == multiset(Paying(orders, index, charges, p.ref))
      && p.lone == (|p.rows| == 1)
  }

  ghost predicate CallsKept(s: State) {
    forall sid :: sid in s.sessions ==> CallKept(s.sessions[sid], s.orders, s.index, s.charges)
  }

  ghost predicate Kept(s: State) {
    && TablesOk(s) && Matched(s.orders, s.ledger)
    && Accounts(s.orders, s.index, s.charges, s.ledger)
    && Charged(s) && CallsKept(s)
  }

  ghost predicate ProperAt(s: State, id: OrderId, m: Move)
    requires id in s.orders
  {
    Proper(s.orders[id], m, Total(PaidOn(id), s.ledger))
  }

  ghost predicate Disciplined(s: State, a: Step) {
    && CleanReferences(s, a)
    && match a {
         case VendorWrites(id, store, status) =>
           id in s.orders ==> ProperAt(s, id, VendorSets(store, status, FulfilmentOf(s.orders, id)))
         case OnOrder(id, m) => id in s.orders ==> ProperAt(s, id, m)
         case _ => true
       }
  }

  ghost predicate DisciplinedRun(s: State, steps: seq<Step>)
    decreases |steps|
  {
    steps != [] ==> Disciplined(s, steps[0]) && DisciplinedRun(Next(s, steps[0]).state, steps[1..])
  }

  // ---------- One order moves ----------

  lemma OtherAccount(orders: map<OrderId, Order>, index: map<Ref, seq<OrderId>>, charges: map<Ref, int>,
                     l: seq<Entry>, id: OrderId, o: Order, fx: Effect, other: OrderId)
    requires Accounts(orders, index, charges, l) && Indexed(orders, index)
    requires id in orders && OrderFollows(orders[id], o) && other in orders && other != id
    ensures AccountOf(orders[id := o], index, charges, Apply(l, id, fx), other)
  {
    assert AccountOf(orders, index, charges, l, other);
    ApplyElsewhere(l, id, fx, other);
    FollowsOne(orders, id, o);
    RowsThere(orders, index, orders[other].ref);
    PayingSame(orders, orders[id := o], index, charges, orders[other].ref);
    hide Account, Paying, OrderFollows, Indexed;
  }

  lemma FollowsOne(orders: map<OrderId, Order>, id: OrderId, o: Order)
    requires id in orders && OrderFollows(orders[id], o)
    ensures OrdersFollow(orders, orders[id := o])
  {
  }

  lemma RowsThere(orders: map<OrderId, Order>, index: map<Ref, seq<OrderId>>, ref: Ref)
    requires Indexed(orders, index)
    ensures forall i :: 0 <= i < |RowsOf(index, ref)| ==>
              RowsOf(index, ref)[i] in orders && orders[RowsOf(index, ref)[i]].ref == ref
    ensures NoDuplicates(RowsOf(index, ref))
  {
  }

  lemma ActAccounts(s: State, id: OrderId, m: Move)
    requires Accounts(s.orders, s.index, s.charges, s.ledger) && Indexed(s.orders, s.index) && OrdersShape(s.orders)
    requires id in s.orders ==> ProperAt(s, id, m)
    ensures var t := ActOn(s, id, m).state; Accounts(t.orders, s.index, s.charges, t.ledger)
  {
    hide Account, Act, Proper, OrderShape, OrderFollows, Indexed, Paying;
    if id in s.orders {
      var o := s.orders[id];
      var any := HasHeld(s.ledger, id);
      var r := Act(o, m, s.now, any);
      ActFollows(o, m, s.now, any);
      OwnAccount(s, id, m);
      var t := ActOn(s, id, m).state;
      forall other | other in t.orders ensures AccountOf(t.orders, s.index, s.charges, t.ledger, other) {
        if other != id { OtherAccount(s.orders, s.index, s.charges, s.ledger, id, r.order, r.fx, other); }
      }
    }
  }

  lemma OwnAccount(s: State, id: OrderId, m: Move)
    requires Accounts(s.orders, s.index, s.charges, s.ledger) && Indexed(s.orders, s.index) && OrdersShape(s.orders)
    requires id in s.orders && ProperAt(s, id, m)
    ensures var t := ActOn(s, id, m).state; AccountOf(t.orders, s.index, s.charges, t.ledger, id)
  {
    hide *;
    var o := s.orders[id];
    var any := HasHeld(s.ledger, id);
    var r := Act(o, m, s.now, any);
    var held, paidOut := Total(HeldOn(id), s.ledger), Total(PaidOn(id), s.ledger);
    var rows, n := Total(RowsOn(id), s.ledger), |Paying(s.orders, s.index, s.charges, o.ref)|;
    AccountAt(s, id);
    ShapeAt(s, id);
    ProperIs(s, id, m);
    ActAccount(o, m, s.now, any, held, paidOut, rows, n);
    ActFollows(o, m, s.now, any);
    ApplyOnOrder(s.ledger, id, r.fx);
    FollowsOne(s.orders, id, r.order);
    RowsThere(s.orders, s.index, o.ref);
    PayingSame(s.orders, s.orders[id := r.order], s.index, s.charges, o.ref);
    ActOnIs(s, id, m);
    SameRef(o, r.order);
    AfterFx(held, paidOut, r.fx);
    AccountIs(s.orders[id := r.order], s.index, s.charges, Apply(s.ledger, id, r.fx), id,
              HeldAfter(held, r.fx), PaidAfter(held, paidOut, r.fx), rows, n);
  }

  lemma ShapeAt(s: State, id: OrderId)
    requires OrdersShape(s.orders) && id in s.orders
    ensures OrderShape(s.orders[id])
  {
  }

  lemma ProperIs(s: State, id: OrderId, m: Move)
    requires id in s.orders && ProperAt(s, id, m)
    ensures Proper(s.orders[id], m, Total(PaidOn(id), s.ledger))
  {
  }

  lemma SameRef(o: Order, after: Order)
    requires OrderFollows(o, after)
    ensures after.ref == o.ref
  {
  }

  lemma AfterFx(held: int, paidOut: int, fx: Effect)
    ensures HeldAfter(held, fx) == if fx.Keep? then held else 0
    ensures PaidAfter(held, paidOut, fx) ==
            match fx {
              case Release => paidOut + held
              case VoidLive => 0
              case _ => paidOut
            }
  {
  }

  lemma AccountIs(orders: map<OrderId, Order>, index: map<Ref, seq<OrderId>>, charges: map<Ref, int>, l: seq<Entry>,
                  id: OrderId, held: int, paidOut: int, rows: int, n: int)
    requires id in orders && |Paying(orders, index, charges, orders[id].ref)| == n
    requires Total(HeldOn(id), l) == held && Total(PaidOn(id), l) == paidOut && Total(RowsOn(id), l) == rows
    requires Account(orders[id], held, paidOut, rows, n)
    ensures AccountOf(orders, index, charges, l, id)
  {
  }

  /** Later states of the orders, with payment untouched, leave charges and calls standing. */
  lemma ChargedLater(s: State, orders: map<OrderId, Order>)
    requires Charged(s) && Indexed(s.orders, s.index)
    requires OrdersFollow(s.orders, orders) && orders.Keys == s.orders.Keys
    requires SamePaid(s.orders, orders)
    ensures Charged(s.(orders := orders))
  {
    hide OrdersFollow, Paying, Indexed;
    forall ref | ref in s.index ensures PaidAsOne(orders, s.index, s.charges, ref) {
      assert PaidAsOne(s.orders, s.index, s.charges, ref);
      RowsThere(s.orders, s.index, ref);
      PayingSame(s.orders, orders, s.index, s.charges, ref);
    }
  }

  lemma CallsLater(s: State, orders: map<OrderId, Order>)
    requires CallsKept(s) && Indexed(s.orders, s.index)
    requires OrdersFollow(s.orders, orders)
    ensures CallsKept(s.(orders := orders))
  {
    hide OrdersFollow, Paying, Indexed;
    forall sid | sid in s.sessions ensures CallKept(s.sessions[sid], orders, s.index, s.charges) {
      var p := s.sessions[sid];
      assert CallKept(p, s.orders, s.index, s.charges);
      if p.Confirming? {
        RowsThere(s.orders, s.index, p.ref);
        PayingSame(s.orders, orders, s.index, s.charges, p.ref);
      }
    }
  }

  lemma ActKept(s: State, id: OrderId, m: Move)
    requires Kept(s) && (id in s.orders ==> ProperAt(s, id, m))
    ensures Kept(ActOn(s, id, m).state)
  {
    hide *;
    KeptGives(s);
    var t := ActOn(s, id, m).state;
    ActOnOk(s, id, m);
    ActPaid(s, id, m);
    ActTables(s, id, m);
    ActMatched(s, id, m);
    ActAccounts(s, id, m);
    ChargedLater(s, t.orders);
    CallsLater(s, t.orders);
    LedgerIrrelevant(s.(orders := t.orders), t);
    KeptMeans(t);
  }

  lemma KeptMeans(s: State)
    requires TablesOk(s) && Matched(s.orders, s.ledger) && Accounts(s.orders, s.index, s.charges, s.ledger)
    requires Charged(s) && CallsKept(s)
    ensures Kept(s)
  {
  }

  lemma ActTables(s: State, id: OrderId, m: Move)
    requires TablesOk(s)
    ensures TablesOk(ActOn(s, id, m).state)
  {
    hide RowsOk, PricesValid, ActOn;
    ActOnOk(s, id, m);
    ConfirmsStable(s.sessions, s.orders, ActOn(s, id, m).state.orders);
  }


  lemma RowsIndexed(s: State)
    requires TablesOk(s)
    ensures Indexed(s.orders, s.index) && OrdersShape(s.orders)
  {
  }

  lemma LedgerIrrelevant(s: State, t: State)
    requires Charged(s) && CallsKept(s)
    requires t.orders == s.orders && t.index == s.index && t.charges == s.charges && t.sessions == s.sessions
    ensures Charged(t) && CallsKept(t)
  {
  }

  lemma VendorKept(s: State, id: OrderId, store: StoreId, status: OrderStatus)
    requires Kept(s) && Disciplined(s, VendorWrites(id, store, status))
    ensures Kept(VendorWritesStep(s, id, store, status).state)
  {
    hide Kept, ActOn, CleanReferences, Proper;
    if id in s.orders {
      ActKept(s, id, VendorSets(store, status, FulfilmentOf(s.orders, id)));
    }
  }

  // ---------- The sweep ----------

  lemma SessionSwap(s: State, sid: SessionId, p: Session)
    requires Kept(s) && p.Sweeping?
    ensures Kept(WithSession(s, sid, p))
  {
    hide Accounts, Matched, RowsOk, PaidAsOne, Paying;
  }

  lemma CloseKept(s: State, sid: SessionId)
    requires Kept(s)
    ensures Kept(Close(s, sid))
  {
    hide Accounts, Matched, RowsOk, CallKept, PaidAsOne;
  }

  lemma SweepKept(s: State, sid: SessionId)
    requires Kept(s)
    ensures Kept(SweepStep(s, sid).state)
  {
    hide Kept, ActOn;
    if sid in s.sessions && s.sessions[sid].Sweeping? {
      var w := s.sessions[sid];
      if w.pos >= |w.rows| {
        CloseKept(s, sid);
      } else {
        var m := if w.between then SweepRelease else SweepMark;
        ActKept(s, w.rows[w.pos], m);
        SessionSwap(ActOn(s, w.rows[w.pos], m).state, sid,
                    Sweeping(w.rows, if w.between then w.pos + 1 else w.pos, !w.between));
      }
    }
  }

  // ---------- Placing ----------

  lemma NewOrderAccount(req: Checkout, k: int, now: int, n: int)
    requires 0 <= k < |req.baskets|
    ensures Account(NewOrder(req, k, now), 0, 0, 0, n)
    ensures NewOrder(req, k, now).paid.None?
  {
  }

  lemma PlaceKept(s: State, sid: SessionId, ids: seq<OrderId>)
    requires Kept(s) && Disciplined(s, PlaceOrders(sid, ids))
    ensures Kept(PlaceOrdersStep(s, sid, ids).state)
  {
    hide Kept, Disciplined, PlaceOrdersStep;
    if PlaceOrdersStep(s, sid, ids).reply.Ok? {
      PlaceKeptOk(s, sid, ids);
    } else {
      CloseKept(s, sid);
      RefusedPlace(s, sid, ids);
    }
  }

  lemma RefusedPlace(s: State, sid: SessionId, ids: seq<OrderId>)
    requires PlaceOrdersStep(s, sid, ids).reply.Err?
    ensures PlaceOrdersStep(s, sid, ids).state == s || PlaceOrdersStep(s, sid, ids).state == Close(s, sid)
  {
  }

  lemma PlaceKeptOk(s: State, sid: SessionId, ids: seq<OrderId>)
    requires Kept(s) && Disciplined(s, PlaceOrders(sid, ids)) && PlaceOrdersStep(s, sid, ids).reply.Ok?
    ensures Kept(PlaceOrdersStep(s, sid, ids).state)
  {
    assert CleanReferences(s, PlaceOrders(sid, ids)) && TablesOk(s) && Matched(s.orders, s.ledger);
    hide *;
    StepTables(s, PlaceOrders(sid, ids));
    PlaceMatched(s, sid, ids);
    RowsIndexed(s);
    PlacedAccounts(s, sid, ids);
    PlacedCharged(s, sid, ids);
    PlacedCalls(s, sid, ids);
    KeptIs(PlaceOrdersStep(s, sid, ids).state);
  }

  lemma KeptIs(s: State)
    requires TablesOk(s) && Matched(s.orders, s.ledger) && Accounts(s.orders, s.index, s.charges, s.ledger)
    requires Charged(s) && CallsKept(s)
    ensures Kept(s)
  {
  }

  lemma KeptGives(s: State)
    requires Kept(s)
    ensures TablesOk(s) && Matched(s.orders, s.ledger) && Accounts(s.orders, s.index, s.charges, s.ledger)
    ensures Charged(s) && CallsKept(s) && RowsOk(s.orders, s.index, s.ledger)
    ensures Indexed(s.orders, s.index) && OrdersShape(s.orders)
  {
  }

  lemma StepTables(s: State, a: Step)
    requires TablesOk(s)
    ensures TablesOk(Next(s, a).state)
    ensures a.PlaceOrders? ==> Next(s, a).state == PlaceOrdersStep(s, a.sid, a.ids).state
  {
    hide TablesOk, CreateOfferStep, BuyerMoveStep, VendorMoveStep, ExpireAll, BeginCheckoutStep, PriceLineStep,
         PlaceOrdersStep, BeginConfirmStep, CommitConfirmStep, AbandonAll, VendorWritesStep, ActOn,
         BeginSweepStep, SweepStep, WithdrawStep, DepositStep;
    StepOk(s, a);
  }

  /** What a checkout that goes through adds to its reference. */
  lemma PlacedRows(s: State, sid: SessionId, ids: seq<OrderId>)
    requires PlaceOrdersStep(s, sid, ids).reply.Ok? && Indexed(s.orders, s.index)
    ensures sid in s.sessions && s.sessions[sid].Pricing?
    ensures var ref := s.sessions[sid].req.ref;
            var t := PlaceOrdersStep(s, sid, ids).state;
            && RowsOf(t.index, ref) == RowsOf(s.index, ref) + ids
            && (forall r :: r != ref ==> RowsOf(t.index, r) == RowsOf(s.index, r))
            && t.sessions == s.sessions - {sid} && t.charges == s.charges && t.ledger == s.ledger
            && OrdersFollow(s.orders, t.orders)
            && (forall id :: id in s.orders ==> id in t.orders && t.orders[id] == s.orders[id])
            && (forall id :: id in t.orders && id !in s.orders ==> FreshAccount(t.orders[id]))
            && NonePaid(t.orders, ids)
  {
    hide *;
    Placed(s, sid, ids);
    PlacedIndex(s, sid, ids);
    NewFresh(s.sessions[sid].req, s.now);
    var ref, t := s.sessions[sid].req.ref, PlaceOrdersStep(s, sid, ids).state;
    IndexUpdated(s.index, ref, RowsOf(s.index, ref) + ids);
    SameFollow(s.orders, t.orders);
    NewUnpaid(t.orders, ids);
  }

  lemma IndexUpdated(index: map<Ref, seq<OrderId>>, ref: Ref, rows: seq<OrderId>)
    ensures RowsOf(index[ref := rows], ref) == rows
    ensures forall r :: r != ref ==> RowsOf(index[ref := rows], r) == RowsOf(index, r)
  {
  }

  lemma SameFollow(before: map<OrderId, Order>, after: map<OrderId, Order>)
    requires forall id :: id in before ==> id in after && after[id] == before[id]
    ensures OrdersFollow(before, after)
  {
  }

  lemma NewUnpaid(orders: map<OrderId, Order>, ids: seq<OrderId>)
    requires forall i :: 0 <= i < |ids| ==> ids[i] in orders && FreshAccount(orders[ids[i]])
    ensures NonePaid(orders, ids)
  {
  }

  lemma PlacedIndex(s: State, sid: SessionId, ids: seq<OrderId>)
    requires PlaceOrdersStep(s, sid, ids).reply.Ok?
    ensures var ref := s.sessions[sid].req.ref;
            var t := PlaceOrdersStep(s, sid, ids).state;
            && t.index == s.index[ref := RowsOf(s.index, ref) + ids]
            && (forall i :: 0 <= i < |ids| ==> ids[i] in t.orders && ids[i] !in s.orders)
  {
    InsertedRows(s.orders, s.sessions[sid].req, ids, s.now);
    hide InsertOrders, Insertable;
  }

  /** An order with nothing to its account yet. */
  ghost predicate FreshAccount(o: Order) {
    o.paid.None? && Unpaid(o.status) && o.refunds == []
  }

  lemma NewFresh(req: Checkout, now: int)
    ensures forall k :: 0 <= k < |req.baskets| ==> FreshAccount(NewOrder(req, k, now))
  {
  }

  lemma FreshIsUnpaid(o: Order)
    requires FreshAccount(o)
    ensures o.paid.None?
  {
  }

  lemma PlacedAccounts(s: State, sid: SessionId, ids: seq<OrderId>)
    requires Kept(s) && PlaceOrdersStep(s, sid, ids).reply.Ok?
    ensures var t := PlaceOrdersStep(s, sid, ids).state; Accounts(t.orders, t.index, t.charges, t.ledger)
  {
    KeptGives(s);
    PlacedRows(s, sid, ids);
    hide Kept, PlaceOrdersStep, TablesOk, Matched, Accounts, Charged, CallsKept, RowsOk, Indexed, OrdersShape,
         FreshAccount, AccountOf, OrdersFollow, NonePaid;
    var t := PlaceOrdersStep(s, sid, ids).state;
    forall id | id in t.orders ensures AccountOf(t.orders, t.index, t.charges, t.ledger, id) {
      if id in s.orders {
        StillAccount(s, t, id);
      } else {
        NewAccount(s, t, id);
      }
    }
    AccountsAre(t);
  }

  lemma AccountsAre(t: State)
    requires forall id :: id in t.orders ==> AccountOf(t.orders, t.index, t.charges, t.ledger, id)
    ensures Accounts(t.orders, t.index, t.charges, t.ledger)
  {
  }

  lemma NewAccount(s: State, t: State, id: OrderId)
    requires RowsOk(s.orders, s.index, s.ledger) && t.ledger == s.ledger
    requires id in t.orders && id !in s.orders && FreshAccount(t.orders[id])
    ensures AccountOf(t.orders, t.index, t.charges, t.ledger, id)
  {
    NoneOf(s, id);
    hide Paying, Total;
  }

  lemma StillAccount(s: State, t: State, id: OrderId)
    requires Accounts(s.orders, s.index, s.charges, s.ledger) && Charged(s) && Indexed(s.orders, s.index)
    requires OrdersFollow(s.orders, t.orders) && t.charges == s.charges && t.ledger == s.ledger
    requires id in s.orders && id in t.orders && t.orders[id] == s.orders[id]
    requires RowsOf(s.index, s.orders[id].ref) <= RowsOf(t.index, s.orders[id].ref)
    ensures AccountOf(t.orders, t.index, t.charges, t.ledger, id)
  {
    var ref := s.orders[id].ref;
    assert AccountOf(s.orders, s.index, s.charges, s.ledger, id);
    if s.orders[id].paid.Some? {
      PaidIsCovered(s, id);
      RowsThere(s.orders, s.index, ref);
      PayingGrows(s.orders, t.orders, s.index, t.index, s.charges, ref);
    }
    hide Paying, OrdersFollow, Indexed, Charged, Total;
  }

  /** A paid order is among those its charge covers. */
  lemma PaidIsCovered(s: State, id: OrderId)
    requires Charged(s) && Indexed(s.orders, s.index) && id in s.orders && s.orders[id].paid.Some?
    ensures id in Paying(s.orders, s.index, s.charges, s.orders[id].ref)
  {
    hide *;
    var ref := s.orders[id].ref;
    var rows := RowsOf(s.index, ref);
    InRows(s, id);
    PaidNotIn(s.orders, rows, id);
    PaidSplit(s, ref);
    PaidNotIn(s.orders, rows[|Paying(s.orders, s.index, s.charges, ref)|..], id);
  }

  lemma InRows(s: State, id: OrderId)
    requires Indexed(s.orders, s.index) && id in s.orders
    ensures id in RowsOf(s.index, s.orders[id].ref)
  {
  }

  lemma PaidNotIn(orders: map<OrderId, Order>, rows: seq<OrderId>, id: OrderId)
    ensures NonePaid(orders, rows) && id in orders && orders[id].paid.Some? ==> id !in rows
  {
  }

  lemma NoneOf(s: State, id: OrderId)
    requires RowsOk(s.orders, s.index, s.ledger) && id !in s.orders
    ensures Total(HeldOn(id), s.ledger) == 0 && Total(PaidOn(id), s.ledger) == 0 && Total(RowsOn(id), s.ledger) == 0
  {
    forall i | 0 <= i < |s.ledger| ensures s.ledger[i].order != Some(id) {
      assert OwnCredit(s.ledger[i], s.orders);
    }
    NoRows(s.ledger, id);
  }

  lemma PlacedCharged(s: State, sid: SessionId, ids: seq<OrderId>)
    requires Kept(s) && PlaceOrdersStep(s, sid, ids).reply.Ok?
    ensures Charged(PlaceOrdersStep(s, sid, ids).state)
  {
    KeptGives(s);
    PlacedRows(s, sid, ids);
    hide Kept, PlaceOrdersStep, TablesOk, Matched, Accounts, Charged, CallsKept, RowsOk, Indexed, OrdersShape,
         FreshAccount, OrdersFollow, NonePaid, PaidAsOne;
    var t := PlaceOrdersStep(s, sid, ids).state;
    forall ref | ref in t.index ensures PaidAsOne(t.orders, t.index, t.charges, ref) {
      if ref == s.sessions[sid].req.ref {
        GrownCharge(s, t, ref, ids);
      } else {
        GrownCharge(s, t, ref, []);
      }
    }
    ChargesAre(t);
  }

  lemma ChargesAre(t: State)
    requires forall ref :: ref in t.index ==> PaidAsOne(t.orders, t.index, t.charges, ref)
    ensures Charged(t)
  {
  }

  lemma GrownCharge(s: State, t: State, ref: Ref, more: seq<OrderId>)
    requires Charged(s) && Indexed(s.orders, s.index) && OrdersFollow(s.orders, t.orders) && t.charges == s.charges
    requires forall id :: id in s.orders ==> id in t.orders && t.orders[id] == s.orders[id]
    requires (more == [] || NonePaid(t.orders, more)) && RowsOf(t.index, ref) == RowsOf(s.index, ref) + more
    ensures PaidAsOne(t.orders, t.index, t.charges, ref)
  {
    hide *;
    if NonePaid(s.orders, RowsOf(s.index, ref)) {
      StayUnpaid(s.orders, t.orders, RowsOf(s.index, ref));
      MoreUnpaid(t.orders, RowsOf(s.index, ref), more);
      NothingPaid(t.orders, t.index, t.charges, ref);
    } else {
      PaidSplit(s, ref);
      RowsThere(s.orders, s.index, ref);
      GrownPart(s.orders, t.orders, s.index, t.index, s.charges, ref, more);
    }
  }

  lemma GrownPart(x: map<OrderId, Order>, y: map<OrderId, Order>, index: map<Ref, seq<OrderId>>,
                  after: map<Ref, seq<OrderId>>, charges: map<Ref, int>, ref: Ref, more: seq<OrderId>)
    requires OrdersFollow(x, y) && forall id :: id in x ==> id in y && y[id] == x[id]
    requires forall i :: 0 <= i < |RowsOf(index, ref)| ==> RowsOf(index, ref)[i] in x
    requires (more == [] || NonePaid(y, more)) && RowsOf(after, ref) == RowsOf(index, ref) + more
    requires var rows, paying := RowsOf(index, ref), Paying(x, index, charges, ref);
             && paying != [] && AllPaid(x, paying) && NonePaid(x, rows[|paying|..])
             && rows == paying + rows[|paying|..]
    ensures PaidAsOne(y, after, charges, ref)
  {
    hide *;
    var rows, paying := RowsOf(index, ref), Paying(x, index, charges, ref);
    var rest := rows[|paying|..];
    PayingGrows(x, y, index, after, charges, ref);
    StayPaid(x, y, paying);
    StayUnpaid(x, y, rest);
    MoreUnpaid(y, rest, more);
    assert RowsOf(after, ref) == paying + (rest + more);
    PartPaid(y, after, charges, ref, rest + more);
  }

  lemma PaidSplit(s: State, ref: Ref)
    requires Charged(s) && !NonePaid(s.orders, RowsOf(s.index, ref))
    ensures var rows, paying := RowsOf(s.index, ref), Paying(s.orders, s.index, s.charges, ref);
            && paying != [] && AllPaid(s.orders, paying) && NonePaid(s.orders, rows[|paying|..])
            && rows == paying + rows[|paying|..]
  {
    hide Paying;
    assert ref in s.index;
    assert PaidAsOne(s.orders, s.index, s.charges, ref);
  }

  lemma NothingPaid(orders: map<OrderId, Order>, index: map<Ref, seq<OrderId>>, charges: map<Ref, int>, ref: Ref)
    requires NonePaid(orders, RowsOf(index, ref))
    ensures PaidAsOne(orders, index, charges, ref)
  {
  }

  lemma PartPaid(orders: map<OrderId, Order>, index: map<Ref, seq<OrderId>>, charges: map<Ref, int>, ref: Ref,
                 rest: seq<OrderId>)
    requires var paying := Paying(orders, index, charges, ref);
             paying != [] && AllPaid(orders, paying) && RowsOf(index, ref) == paying + rest && NonePaid(orders, rest)
    ensures PaidAsOne(orders, index, charges, ref)
  {
    hide Paying;
    var paying := Paying(orders, index, charges, ref);
    assert (paying + rest)[|paying|..] == rest;
  }

  lemma StayPaid(x: map<OrderId, Order>, y: map<OrderId, Order>, rows: seq<OrderId>)
    requires AllPaid(x, rows) && forall id :: id in x ==> id in y && y[id] == x[id]
    ensures AllPaid(y, rows)
  {
  }

  lemma StayUnpaid(x: map<OrderId, Order>, y: map<OrderId, Order>, rows: seq<OrderId>)
    requires NonePaid(x, rows) && forall id :: id in x ==> id in y && y[id] == x[id]
    ensures NonePaid(y, rows)
  {
  }

  lemma MoreUnpaid(orders: map<OrderId, Order>, rows: seq<OrderId>, more: seq<OrderId>)
    requires NonePaid(orders, rows) && (more == [] || NonePaid(orders, more))
    ensures NonePaid(orders, rows + more)
  {
  }

  lemma AlsoSome(xs: seq<OrderId>, ys: seq<OrderId>)
    requires multiset(xs) == multiset(ys) && xs != []
    ensures ys != []
  {
    assert |multiset(xs)| == |xs| && |multiset(ys)| == |ys|;
  }

  lemma PlacedCalls(s: State, sid: SessionId, ids: seq<OrderId>)
    requires Kept(s) && PlaceOrdersStep(s, sid, ids).reply.Ok?
    ensures CallsKept(PlaceOrdersStep(s, sid, ids).state)
  {
    KeptGives(s);
    PlacedRows(s, sid, ids);
    hide Kept, PlaceOrdersStep, TablesOk, Matched, Accounts, Charged, RowsOk, Indexed, OrdersShape,
         FreshAccount, OrdersFollow, NonePaid, Paying;
    var t := PlaceOrdersStep(s, sid, ids).state;
    forall other | other in t.sessions ensures CallKept(t.sessions[other], t.orders, t.index, t.charges) {
      var p := t.sessions[other];
      assert CallKept(p, s.orders, s.index, s.charges);
      if p.Confirming? {
        AlsoSome(p.rows, Paying(s.orders, s.index, s.charges, p.ref));
        RowsThere(s.orders, s.index, p.ref);
        PayingGrows(s.orders, t.orders, s.index, t.index, s.charges, p.ref);
      }
    }
  }

  // ---------- Paying ----------

  lemma PayAccount(o: Order, now: int, n: int, lone: bool)
    requires OrderShape(o) && Unpaid(o.status) && lone == (n == 1)
    requires o.refunds == []
    ensures Account(o.(status := Confirmed, paid := Some(now)), CreditAmount(o, lone), 0, 1, n)
  {
  }

  lemma PayOneAccounts(s: State, ref: Ref, id: OrderId, lone: bool)
    requires RowsOk(s.orders, s.index, s.ledger) && Matched(s.orders, s.ledger)
    requires Accounts(s.orders, s.index, s.charges, s.ledger)
    requires id in s.orders && s.orders[id].ref == ref
    requires lone == (|Paying(s.orders, s.index, s.charges, ref)| == 1)
    ensures var t := PayOne(s, ref, id, lone);
            Accounts(t.orders, s.index, s.charges, t.ledger) && t.orders[id].paid.Some?
  {
    hide Accounts, Matched, Indexed, Credits, CreditRow, RedeemAll, Paying;
    if AwaitsPayment(s.orders, id) {
      FreeReference(s, id, lone);
      CreditedAccounts(s, id, lone);
    } else {
      PaidAlready(s, id);
    }
  }

  lemma PaidAlready(s: State, id: OrderId)
    requires Accounts(s.orders, s.index, s.charges, s.ledger) && id in s.orders && !AwaitsPayment(s.orders, id)
    ensures s.orders[id].paid.Some?
  {
    hide Paying;
    assert AccountOf(s.orders, s.index, s.charges, s.ledger, id);
  }

  lemma CreditedAccounts(s: State, id: OrderId, lone: bool)
    requires OrdersShape(s.orders) && Indexed(s.orders, s.index) && AwaitsPayment(s.orders, id)
    requires Accounts(s.orders, s.index, s.charges, s.ledger)
    requires lone == (|Paying(s.orders, s.index, s.charges, s.orders[id].ref)| == 1)
    ensures var o := s.orders[id];
            Accounts(s.orders[id := o.(status := Confirmed, paid := Some(s.now))], s.index, s.charges,
                     s.ledger + [CreditRow(o, id, o.ref, lone)])
  {
    assert id in s.orders;
    hide *;
    var o := s.orders[id];
    var e := CreditRow(o, id, o.ref, lone);
    var orders := s.orders[id := o.(status := Confirmed, paid := Some(s.now))];
    forall x | x in orders ensures AccountOf(orders, s.index, s.charges, s.ledger + [e], x) {
      if x == id { PaidAccount(s, id, lone); } else { AccountElsewhere(s, id, lone, x); }
    }
    AllAccounts(orders, s.index, s.charges, s.ledger + [e]);
  }

  /** The account of the order that is being paid. */
  lemma PaidAccount(s: State, id: OrderId, lone: bool)
    requires OrdersShape(s.orders) && Indexed(s.orders, s.index) && AwaitsPayment(s.orders, id)
    requires Accounts(s.orders, s.index, s.charges, s.ledger)
    requires lone == (|Paying(s.orders, s.index, s.charges, s.orders[id].ref)| == 1)
    ensures var o := s.orders[id];
            AccountOf(s.orders[id := o.(status := Confirmed, paid := Some(s.now))], s.index, s.charges,
                      s.ledger + [CreditRow(o, id, o.ref, lone)], id)
  {
    var o := s.orders[id];
    var e := CreditRow(o, id, o.ref, lone);
    var paid := o.(status := Confirmed, paid := Some(s.now));
    var n := |Paying(s.orders, s.index, s.charges, o.ref)|;
    AwaitingIs(s.orders, id);
    hide *;
    CreditIs(o, id, lone);
    ShapeAt(s, id);
    UnpaidFacts(s, id);
    PayAccount(o, s.now, n, lone);
    PaidFollows(s, id);
    RowsThere(s.orders, s.index, o.ref);
    PayingSame(s.orders, s.orders[id := paid], s.index, s.charges, o.ref);
    Appended(s.ledger, e, id);
    AccountIs(s.orders[id := paid], s.index, s.charges, s.ledger + [e], id, CreditAmount(o, lone), 0, 1, n);
  }

  lemma AwaitingIs(orders: map<OrderId, Order>, id: OrderId)
    requires AwaitsPayment(orders, id)
    ensures id in orders && Unpaid(orders[id].status)
  {
  }

  lemma CreditIs(o: Order, id: OrderId, lone: bool)
    ensures var e := CreditRow(o, id, o.ref, lone);
            e.order == Some(id) && e.status.Held? && e.amount == CreditAmount(o, lone)
  {
    hide CreditAmount;
  }

  /** The accounts of the others. */
  lemma AccountElsewhere(s: State, id: OrderId, lone: bool, x: OrderId)
    requires OrdersShape(s.orders) && Indexed(s.orders, s.index) && AwaitsPayment(s.orders, id)
    requires x in s.orders && x != id
    requires Accounts(s.orders, s.index, s.charges, s.ledger)
    ensures var o := s.orders[id];
            AccountOf(s.orders[id := o.(status := Confirmed, paid := Some(s.now))], s.index, s.charges,
                      s.ledger + [CreditRow(o, id, o.ref, lone)], x)
  {
    var o := s.orders[id];
    var e := CreditRow(o, id, o.ref, lone);
    var orders := s.orders[id := o.(status := Confirmed, paid := Some(s.now))];
    hide *;
    CreditIs(o, id, lone);
    PaidFollows(s, id);
    RowsThere(s.orders, s.index, orders[x].ref);
    PayingSame(s.orders, orders, s.index, s.charges, orders[x].ref);
    Appended(s.ledger, e, x);
    AccountAt(s, x);
    AccountIs(orders, s.index, s.charges, s.ledger + [e], x,
              Total(HeldOn(x), s.ledger), Total(PaidOn(x), s.ledger), Total(RowsOn(x), s.ledger),
              |Paying(s.orders, s.index, s.charges, s.orders[x].ref)|);
  }

  lemma AllAccounts(orders: map<OrderId, Order>, index: map<Ref, seq<OrderId>>, charges: map<Ref, int>, l: seq<Entry>)
    requires forall id :: id in orders ==> AccountOf(orders, index, charges, l, id)
    ensures Accounts(orders, index, charges, l)
  {
  }

  lemma AccountAt(s: State, id: OrderId)
    requires Accounts(s.orders, s.index, s.charges, s.ledger) && id in s.orders
    ensures Account(s.orders[id], Total(HeldOn(id), s.ledger), Total(PaidOn(id), s.ledger),
                    Total(RowsOn(id), s.ledger), |Paying(s.orders, s.index, s.charges, s.orders[id].ref)|)
  {
    assert AccountOf(s.orders, s.index, s.charges, s.ledger, id);
  }

  lemma Appended(l: seq<Entry>, e: Entry, id: OrderId)
    ensures e.order != Some(id) ==>
              && Total(HeldOn(id), l + [e]) == Total(HeldOn(id), l)
              && Total(PaidOn(id), l + [e]) == Total(PaidOn(id), l)
              && Total(RowsOn(id), l + [e]) == Total(RowsOn(id), l)
    ensures e.order == Some(id) && e.status.Held? ==>
              && Total(HeldOn(id), l + [e]) == Total(HeldOn(id), l) + e.amount
              && Total(PaidOn(id), l + [e]) == Total(PaidOn(id), l)
              && Total(RowsOn(id), l + [e]) == Total(RowsOn(id), l) + 1
  {
    hide Total;
    TotalAppend(HeldOn(id), l, e);
    TotalAppend(PaidOn(id), l, e);
    TotalAppend(RowsOn(id), l, e);
  }

  lemma FreeReference(s: State, id: OrderId, lone: bool)
    requires Matched(s.orders, s.ledger) && OrdersShape(s.orders) && AwaitsPayment(s.orders, id)
    ensures !Taken(s.ledger, CreditRow(s.orders[id], id, s.orders[id].ref, lone).reference)
  {
    assert OrderShape(s.orders[id]);
  }

  lemma UnpaidFacts(s: State, id: OrderId)
    requires OrdersShape(s.orders) && Accounts(s.orders, s.index, s.charges, s.ledger) && AwaitsPayment(s.orders, id)
    ensures s.orders[id].refunds == []
    ensures Total(HeldOn(id), s.ledger) == 0 && Total(PaidOn(id), s.ledger) == 0 && Total(RowsOn(id), s.ledger) == 0
  {
    hide Paying, Total;
    assert OrderShape(s.orders[id]) && AccountOf(s.orders, s.index, s.charges, s.ledger, id);
  }

  lemma {:induction false} PayAllAccounts(s: State, ref: Ref, rows: seq<OrderId>, lone: bool)
    requires RowsOk(s.orders, s.index, s.ledger) && Matched(s.orders, s.ledger)
    requires Accounts(s.orders, s.index, s.charges, s.ledger)
    requires lone == (|Paying(s.orders, s.index, s.charges, ref)| == 1)
    requires forall i :: 0 <= i < |rows| ==> rows[i] in s.orders && s.orders[rows[i]].ref == ref
    ensures var t := PayAll(s, ref, rows, lone);
            && Accounts(t.orders, s.index, s.charges, t.ledger)
            && Matched(t.orders, t.ledger)
            && AllPaid(t.orders, rows)
    decreases |rows|
  {
    hide *;
    if rows == [] {
      PayNone(s, ref, rows, lone);
    } else {
      var next := PayOne(s, ref, rows[0], lone);
      PayStep(s, ref, rows, lone);
      PayingAfterOne(s, ref, rows[0], lone);
      PayOneOk(s, ref, rows[0], lone);
      PayOneMatchedRows(s, ref, rows[0], lone);
      PayOneAccounts(s, ref, rows[0], lone);
      RestThere(s.orders, next.orders, ref, rows);
      PayAllAccounts(next, ref, rows[1..], lone);
      PayAllOk(next, ref, rows[1..], lone);
      FirstPaid(next.orders, PayAll(s, ref, rows, lone).orders, rows);
    }
  }

  lemma RestThere(x: map<OrderId, Order>, y: map<OrderId, Order>, ref: Ref, rows: seq<OrderId>)
    requires rows != [] && OrdersFollow(x, y)
    requires forall i :: 0 <= i < |rows| ==> rows[i] in x && x[rows[i]].ref == ref
    ensures forall i :: 0 <= i < |rows[1..]| ==> rows[1..][i] in y && y[rows[1..][i]].ref == ref
  {
    forall i | 0 <= i < |rows[1..]| ensures rows[1..][i] in y && y[rows[1..][i]].ref == ref {
      assert OrderFollows(x[rows[i + 1]], y[rows[i + 1]]);
    }
  }

  lemma PayNone(s: State, ref: Ref, rows: seq<OrderId>, lone: bool)
    requires rows == []
    ensures PayAll(s, ref, rows, lone) == s && AllPaid(s.orders, rows)
  {
  }

  lemma PayStep(s: State, ref: Ref, rows: seq<OrderId>, lone: bool)
    requires rows != []
    ensures PayAll(s, ref, rows, lone) == PayAll(PayOne(s, ref, rows[0], lone), ref, rows[1..], lone)
  {
    hide PayOne;
  }

  lemma FirstPaid(x: map<OrderId, Order>, y: map<OrderId, Order>, rows: seq<OrderId>)
    requires rows != [] && OrdersFollow(x, y) && rows[0] in x && x[rows[0]].paid.Some? && AllPaid(y, rows[1..])
    ensures AllPaid(y, rows)
  {
    assert OrderFollows(x[rows[0]], y[rows[0]]);
    forall i | 0 <= i < |rows| ensures rows[i] in y && y[rows[i]].paid.Some? {
      if i > 0 { assert rows[i] == rows[1..][i - 1]; }
    }
  }

  lemma PayingAfterOne(s: State, ref: Ref, id: OrderId, lone: bool)
    requires RowsOk(s.orders, s.index, s.ledger) && id in s.orders && s.orders[id].ref == ref
    ensures Paying(PayOne(s, ref, id, lone).orders, s.index, s.charges, ref)
            == Paying(s.orders, s.index, s.charges, ref)
  {
    PayOneOk(s, ref, id, lone);
    RowsThere(s.orders, s.index, ref);
    hide RowsOk, PayOne, Paying;
    PayingSame(s.orders, PayOne(s, ref, id, lone).orders, s.index, s.charges, ref);
  }

  lemma PayOneMatchedRows(s: State, ref: Ref, id: OrderId, lone: bool)
    requires RowsOk(s.orders, s.index, s.ledger) && Matched(s.orders, s.ledger)
    requires id in s.orders && s.orders[id].ref == ref
    ensures Matched(PayOne(s, ref, id, lone).orders, PayOne(s, ref, id, lone).ledger)
  {
    hide Matched, Indexed, Credits;
    PayOneMatched(s, ref, id, lone);
  }

  /** Orders off the reference are not touched by its confirmation. */
  lemma {:induction false} PayAllElsewhere(s: State, ref: Ref, rows: seq<OrderId>, lone: bool, id: OrderId)
    requires id in s.orders && id !in rows
    ensures PayAll(s, ref, rows, lone).orders[id] == s.orders[id]
    decreases |rows|
  {
    if rows != [] {
      PayAllElsewhere(PayOne(s, ref, rows[0], lone), ref, rows[1..], lone, id);
    }
  }

  lemma CommitFacts(s: State, sid: SessionId)
    requires Kept(s) && sid in s.sessions && s.sessions[sid].Confirming?
    ensures var c := s.sessions[sid];
            var paying := Paying(s.orders, s.index, s.charges, c.ref);
            && paying != [] && c.lone == (|paying| == 1)
            && (forall i :: 0 <= i < |c.rows| ==> c.rows[i] in s.orders && s.orders[c.rows[i]].ref == c.ref)
            && (forall id :: id in c.rows <==> id in paying)
            && RowsOk(s.orders, s.index, s.ledger)
  {
    hide Accounts, Matched, Charged, RowsOk, Paying;
    var c := s.sessions[sid];
    assert CallKept(c, s.orders, s.index, s.charges);
    SameRows(c.rows, Paying(s.orders, s.index, s.charges, c.ref));
  }

  lemma SameRows(xs: seq<OrderId>, ys: seq<OrderId>)
    requires multiset(xs) == multiset(ys)
    ensures |xs| == |ys| && forall id :: id in xs <==> id in ys
  {
    assert |multiset(xs)| == |xs| && |multiset(ys)| == |ys|;
    forall id: OrderId ensures id in xs <==> id in ys {
      assert id in xs <==> id in multiset(xs);
      assert id in ys <==> id in multiset(ys);
    }
  }

  lemma CommitKept(s: State, sid: SessionId)
    requires Kept(s)
    ensures Kept(CommitConfirmStep(s, sid).state)
  {
    if sid in s.sessions && s.sessions[sid].Confirming? {
      var c := s.sessions[sid];
      var b := Close(s, sid);
      CommitFacts(s, sid);
      CloseKept(s, sid);
      hide *;
      KeptGives(b);
      PayAllOk(b, c.ref, c.rows, c.lone);
      PayAllAccounts(b, c.ref, c.rows, c.lone);
      var t := PayAll(b, c.ref, c.rows, c.lone);
      InFlightOk(b);
      ConfirmsStable(b.sessions, b.orders, t.orders);
      CommitCharged(b, t, c.ref, c.rows, c.lone);
      CallsLater(b, t.orders);
      LedgerIrrelevantCalls(b.(orders := t.orders), t);
      TablesAre(t);
      KeptIs(t);
      CommitIs(s, sid);
    }
  }

  lemma TablesAre(t: State)
    requires RowsOk(t.orders, t.index, t.ledger) && ConfirmsOwn(t.sessions, t.orders) && PricesValid(t.sessions)
    ensures TablesOk(t)
  {
  }

  lemma LedgerIrrelevantCalls(s: State, t: State)
    requires CallsKept(s)
    requires t.orders == s.orders && t.index == s.index && t.charges == s.charges && t.sessions == s.sessions
    ensures CallsKept(t)
  {
  }

  lemma CommitCharged(b: State, t: State, ref: Ref, rows: seq<OrderId>, lone: bool)
    requires Charged(b) && Indexed(b.orders, b.index) && t == PayAll(b, ref, rows, lone)
    requires OrdersFollow(b.orders, t.orders) && AllPaid(t.orders, rows)
    requires Paying(b.orders, b.index, b.charges, ref) != []
    requires forall id :: id in rows <==> id in Paying(b.orders, b.index, b.charges, ref)
    ensures Charged(t)
  {
    hide OrdersFollow, PayAll, PaidAsOne, Paying, Indexed, AllPaid;
    forall r | r in t.index ensures PaidAsOne(t.orders, t.index, t.charges, r) {
      assert PaidAsOne(b.orders, b.index, b.charges, r);
      RowsThere(b.orders, b.index, r);
      PayingSame(b.orders, t.orders, b.index, b.charges, r);
      if r == ref {
        CommitPaid(b, t, ref, rows, lone);
      } else {
        CommitBeside(b, t, ref, rows, lone, r);
      }
    }
  }

  lemma CommitPaid(b: State, t: State, ref: Ref, rows: seq<OrderId>, lone: bool)
    requires Indexed(b.orders, b.index) && t == PayAll(b, ref, rows, lone) && AllPaid(t.orders, rows)
    requires PaidAsOne(b.orders, b.index, b.charges, ref)
    requires Paying(t.orders, t.index, t.charges, ref) == Paying(b.orders, b.index, b.charges, ref) != []
    requires forall id :: id in rows <==> id in Paying(b.orders, b.index, b.charges, ref)
    ensures PaidAsOne(t.orders, t.index, t.charges, ref)
  {
    hide PayAll, Paying, Indexed;
    var all, paying := RowsOf(b.index, ref), Paying(b.orders, b.index, b.charges, ref);
    RowsThere(b.orders, b.index, ref);
    forall i | 0 <= i < |paying| ensures paying[i] in t.orders && t.orders[paying[i]].paid.Some? {
      assert paying[i] in rows;
      var j :| 0 <= j < |rows| && rows[j] == paying[i];
    }
    var rest := all[|paying|..];
    forall i | 0 <= i < |rest| ensures rest[i] in t.orders && t.orders[rest[i]].paid.None? {
      assert rest[i] == all[|paying| + i];
      RestUnpaid(b, ref, i);
      PayAllElsewhere(b, ref, rows, lone, rest[i]);
    }
  }

  /** What the charge does not cover is not paid for, and is not among what it covers. */
  lemma RestUnpaid(b: State, ref: Ref, i: int)
    requires Indexed(b.orders, b.index) && PaidAsOne(b.orders, b.index, b.charges, ref)
    requires 0 <= i < |RowsOf(b.index, ref)| - |Paying(b.orders, b.index, b.charges, ref)|
    ensures var paying := Paying(b.orders, b.index, b.charges, ref);
            var id := RowsOf(b.index, ref)[|paying| + i];
            id in b.orders && b.orders[id].paid.None? && id !in paying
  {
    hide Paying, Indexed;
    RowsThere(b.orders, b.index, ref);
    var all, paying := RowsOf(b.index, ref), Paying(b.orders, b.index, b.charges, ref);
    assert all[|paying|..][i] == all[|paying| + i];
    forall j | 0 <= j < |paying| ensures paying[j] != all[|paying| + i] {
      assert paying[j] == all[j];
    }
  }

  lemma CommitBeside(b: State, t: State, ref: Ref, rows: seq<OrderId>, lone: bool, r: Ref)
    requires Indexed(b.orders, b.index) && t == PayAll(b, ref, rows, lone) && r != ref
    requires PaidAsOne(b.orders, b.index, b.charges, r)
    requires Paying(t.orders, t.index, t.charges, r) == Paying(b.orders, b.index, b.charges, r)
    requires forall id :: id in rows <==> id in Paying(b.orders, b.index, b.charges, ref)
    ensures PaidAsOne(t.orders, t.index, t.charges, r)
  {
    hide PayAll, Paying;
    RowsThere(b.orders, b.index, r);
    RowsThere(b.orders, b.index, ref);
    hide Indexed;
    var own, theirs := RowsOf(b.index, r), RowsOf(b.index, ref);
    forall i | 0 <= i < |own| ensures own[i] in t.orders && t.orders[own[i]] == b.orders[own[i]] {
      assert forall j :: 0 <= j < |theirs| ==> theirs[j] != own[i];
      NotInPart(Paying(b.orders, b.index, b.charges, ref), theirs, own[i]);
      PayAllElsewhere(b, ref, rows, lone, own[i]);
    }
  }

  lemma NotInPart(xs: seq<OrderId>, ys: seq<OrderId>, id: OrderId)
    requires xs <= ys && id !in ys
    ensures id !in xs
  {
    assert forall i :: 0 <= i < |xs| ==> xs[i] == ys[i];
  }

  // ---------- The other steps ----------

  lemma AbandonKept(s: State)
    requires Kept(s)
    ensures Kept(s.(orders := AbandonAll(s.orders, s.now)))
  {
    hide Matched, Charged, CallsKept, RowsOk, Accounts;
    AbandonOk(s);
    RowsIndexed(s);
    var orders := AbandonAll(s.orders, s.now);
    ConfirmsStable(s.sessions, s.orders, orders);
    AbandonMatched(s);
    AbandonAccounts(s);
    hide OrderFollows, ConfirmsOwn, PricesValid, Indexed, OrdersFollow;
    ChargedLater(s, orders);
    CallsLater(s, orders);
  }

  lemma AbandonAccounts(s: State)
    requires Accounts(s.orders, s.index, s.charges, s.ledger) && Indexed(s.orders, s.index)
    requires OrdersFollow(s.orders, AbandonAll(s.orders, s.now))
    ensures Accounts(AbandonAll(s.orders, s.now), s.index, s.charges, s.ledger)
  {
    hide Paying, OrdersFollow, Indexed;
    var orders := AbandonAll(s.orders, s.now);
    forall id | id in orders ensures AccountOf(orders, s.index, s.charges, s.ledger, id) {
      assert AccountOf(s.orders, s.index, s.charges, s.ledger, id);
      RowsThere(s.orders, s.index, s.orders[id].ref);
      PayingSame(s.orders, orders, s.index, s.charges, s.orders[id].ref);
    }
  }

  lemma MoneyKept(s: State, a: Step)
    requires Kept(s) && (a.PayOut? || a.Deposit?) && CleanReferences(s, a)
    ensures Kept(Next(s, a).state)
  {
    hide Matched, Charged, CallsKept, Accounts, TablesOk, CleanReferences;
    TablesAfter(s, a);
    StepMatched(s, a);
    var t := Next(s, a).state;
    var e := MoneyAdds(s, a);
    LedgerIrrelevant(s, t);
    MoneyAccounts(s, a);
  }

  lemma TablesAfter(s: State, a: Step)
    requires TablesOk(s)
    ensures TablesOk(Next(s, a).state)
  {
    hide TablesOk, Next;
    StepOk(s, a);
  }

  lemma MoneyAccounts(s: State, a: Step)
    requires Accounts(s.orders, s.index, s.charges, s.ledger) && (a.PayOut? || a.Deposit?)
    ensures Accounts(s.orders, s.index, s.charges, Next(s, a).state.ledger)
  {
    hide *;
    var e := MoneyAdds(s, a);
    var l := Next(s, a).state.ledger;
    if l != s.ledger {
      forall id | id in s.orders ensures AccountOf(s.orders, s.index, s.charges, l, id) {
        AccountAt(s, id);
        Appended(s.ledger, e, id);
        AccountIs(s.orders, s.index, s.charges, l, id, Total(HeldOn(id), s.ledger), Total(PaidOn(id), s.ledger),
                  Total(RowsOn(id), s.ledger), |Paying(s.orders, s.index, s.charges, s.orders[id].ref)|);
      }
      AllAccounts(s.orders, s.index, s.charges, l);
    }
  }

  /** A new call that starts from what the tables say. */
  lemma BeginConfirmKept(s: State, sid: SessionId, ref: Ref, rows: seq<OrderId>)
    requires Kept(s)
    ensures CallsKept(BeginConfirmStep(s, sid, ref, rows).state)
  {
    hide Matched, Accounts, Charged, AwaitsPayment, Paying, RowsOk;
    if multiset(rows) == multiset(RowsOf(s.index, ref)) && rows != []
       && ref in s.charges && s.charges[ref] == SumTotals(s.orders, rows) {
      TotalsPositive(s, ref);
      PayingWhole(s.orders, s.index, s.charges, ref, rows);
    }
    hide SumTotals, Positive, TablesOk;
  }

  lemma TotalsPositive(s: State, ref: Ref)
    requires TablesOk(s)
    ensures Positive(s.orders, RowsOf(s.index, ref))
  {
    RowsIndexed(s);
    hide TablesOk;
    var rows := RowsOf(s.index, ref);
    forall i | 0 <= i < |rows| ensures rows[i] in s.orders && s.orders[rows[i]].total > 0 {
      assert OrderShape(s.orders[rows[i]]);
    }
  }

  lemma BeginSweepKept(s: State, sid: SessionId, rows: seq<OrderId>)
    requires Kept(s)
    ensures CallsKept(BeginSweepStep(s, sid, rows).state)
  {
    hide Matched, Accounts, Charged, TablesOk, NoDuplicates;
  }

  lemma CheckoutCallsKept(s: State, sid: SessionId, req: Checkout)
    requires CallsKept(s)
    ensures CallsKept(BeginCheckoutStep(s, sid, req).state)
    ensures CallsKept(PriceLineStep(s, sid).state)
  {
    hide ValidRequest, CheckLine;
  }

  lemma OpenKept(s: State, a: Step)
    requires Kept(s) && (a.BeginCheckout? || a.PriceLine? || a.BeginConfirm? || a.BeginSweep?)
    ensures Kept(Next(s, a).state)
  {
    hide Matched, Accounts, PaidAsOne, CallsKept, TablesOk, BeginCheckoutStep, PriceLineStep, BeginConfirmStep,
         BeginSweepStep,
         CreateOfferStep, BuyerMoveStep, VendorMoveStep, ExpireAll, PlaceOrdersStep, CommitConfirmStep, AbandonAll,
         VendorWritesStep, ActOn, SweepStep, WithdrawStep, DepositStep;
    TablesAfter(s, a);
    match a
    case BeginCheckout(sid, req) => CheckoutCallsKept(s, sid, req);
    case PriceLine(sid) => CheckoutCallsKept(s, sid, Checkout("", "", [], 0, false));
    case BeginConfirm(sid, ref, rows) => BeginConfirmKept(s, sid, ref, rows);
    case BeginSweep(sid, rows) => BeginSweepKept(s, sid, rows);
  }

  lemma ChargeKept(s: State, ref: Ref, amount: int)
    requires Kept(s) && ref !in s.charges
    ensures Kept(s.(charges := s.charges[ref := amount]))
  {
    KeptGives(s);
    var t := s.(charges := s.charges[ref := amount]);
    TablesCharge(s, t);
    hide *;
    ChargeCharged(s, ref, amount);
    ChargeCalls(s, ref, amount);
    ChargeAccounts(s, ref, amount);
    KeptIs(t);
  }

  lemma ChargeElsewhere(s: State, ref: Ref, amount: int, r: Ref)
    requires ref !in s.charges
    ensures r != ref ==>
              Paying(s.orders, s.index, s.charges[ref := amount], r) == Paying(s.orders, s.index, s.charges, r)
    ensures Paying(s.orders, s.index, s.charges, ref) == []
  {
    hide FirstMatch;
  }

  lemma ChargeCharged(s: State, ref: Ref, amount: int)
    requires Charged(s) && ref !in s.charges
    ensures Charged(s.(charges := s.charges[ref := amount]))
  {
    hide Paying;
    var t := s.(charges := s.charges[ref := amount]);
    forall r | r in t.index ensures PaidAsOne(t.orders, t.index, t.charges, r) {
      assert PaidAsOne(s.orders, s.index, s.charges, r);
      ChargeElsewhere(s, ref, amount, r);
    }
  }

  lemma ChargeCalls(s: State, ref: Ref, amount: int)
    requires CallsKept(s) && ref !in s.charges
    ensures CallsKept(s.(charges := s.charges[ref := amount]))
  {
    hide Paying;
    var t := s.(charges := s.charges[ref := amount]);
    forall sid | sid in t.sessions ensures CallKept(t.sessions[sid], t.orders, t.index, t.charges) {
      var p := s.sessions[sid];
      assert CallKept(p, s.orders, s.index, s.charges);
      if p.Confirming? {
        ChargeElsewhere(s, ref, amount, p.ref);
        AlsoSome(p.rows, Paying(s.orders, s.index, s.charges, p.ref));
      }
    }
  }

  lemma ChargeAccounts(s: State, ref: Ref, amount: int)
    requires Accounts(s.orders, s.index, s.charges, s.ledger) && Charged(s) && Indexed(s.orders, s.index)
    requires ref !in s.charges
    ensures Accounts(s.orders, s.index, s.charges[ref := amount], s.ledger)
  {
    hide Paying, Indexed, Charged, Total;
    forall id | id in s.orders ensures AccountOf(s.orders, s.index, s.charges[ref := amount], s.ledger, id) {
      AccountAt(s, id);
      ChargeElsewhere(s, ref, amount, s.orders[id].ref);
      if s.orders[id].paid.Some? { PaidIsCovered(s, id); }
    }
  }

  lemma TablesCharge(s: State, t: State)
    requires TablesOk(s) && t == s.(charges := t.charges)
    ensures TablesOk(t)
  {
  }

  /** Time, the catalogue and the negotiations are beside the point. */
  lemma IrrelevantKept(s: State, a: Step)
    requires Kept(s)
    requires a.Tick? || a.SetProduct? || a.CreateOffer? || a.BuyerMoves? || a.VendorMoves? || a.ExpireOffers?
    ensures Kept(Next(s, a).state)
  {
    hide Matched, Accounts, PaidAsOne, CallKept, RowsOk, ConfirmsOwn, PricesValid, Paying,
         CreateOfferStep, BuyerMoveStep, VendorMoveStep, ExpireAll, BeginCheckoutStep, PriceLineStep,
         PlaceOrdersStep, BeginConfirmStep, CommitConfirmStep, AbandonAll, VendorWritesStep, ActOn,
         BeginSweepStep, SweepStep, WithdrawStep, DepositStep;
  }

  lemma StepKept(s: State, a: Step)
    requires Kept(s) && Disciplined(s, a)
    ensures Kept(Next(s, a).state)
  {
    hide Kept, CleanReferences, Proper, CreateOfferStep, BuyerMoveStep, VendorMoveStep, ExpireAll, BeginCheckoutStep,
         PriceLineStep,
         PlaceOrdersStep, BeginConfirmStep, CommitConfirmStep, AbandonAll, VendorWritesStep, ActOn,
         BeginSweepStep, SweepStep, WithdrawStep, DepositStep;
    match a
    case PlaceOrders(sid, ids) => PlaceKept(s, sid, ids);
    case CommitConfirm(sid) => CommitKept(s, sid);
    case MarkAbandoned => AbandonKept(s);
    case VendorWrites(id, store, status) => VendorKept(s, id, store, status);
    case OnOrder(id, m) => ActKept(s, id, m);
    case Sweep(sid) => SweepKept(s, sid);
    case PayOut(_, _, _) => MoneyKept(s, a);
    case Deposit(_, _, _) => MoneyKept(s, a);
    case Charge(ref, amount) => if ref !in s.charges { ChargeKept(s, ref, amount); }
    case BeginCheckout(_, _) => OpenKept(s, a);
    case PriceLine(_) => OpenKept(s, a);
    case BeginConfirm(_, _, _) => OpenKept(s, a);
    case BeginSweep(_, _) => OpenKept(s, a);
    case _ => IrrelevantKept(s, a);
  }

  lemma {:induction false} RunKept(s: State, steps: seq<Step>)
    requires Kept(s) && DisciplinedRun(s, steps)
    ensures Kept(Run(s, steps))
    decreases |steps|
  {
    hide Kept, Disciplined, Next;
    if steps != [] {
      StepKept(s, steps[0]);
      RunKept(Next(s, steps[0]).state, steps[1..]);
    }
  }

  // ---------- Conservation ----------

  function Sum(xs: seq<int>): int {
    if xs == [] then 0 else xs[0] + Sum(xs[1..])
  }

  /** Pending and completed credits of the orders. */
  function LiveCredits(l: seq<Entry>, rows: seq<OrderId>): int {
    if rows == [] then 0 else Total(HeldOn(rows[0]), l) + Total(PaidOn(rows[0]), l) + LiveCredits(l, rows[1..])
  }

  function RefundsOn(orders: map<OrderId, Order>, rows: seq<OrderId>): int {
    if rows == [] then 0
    else (if rows[0] in orders then Sum(orders[rows[0]].refunds) else 0) + RefundsOn(orders, rows[1..])
  }

  /** Delivery fees of the orders the platform delivers and has not refunded. */
  function FeesKept(orders: map<OrderId, Order>, rows: seq<OrderId>, n: int): int {
    if rows == [] then 0
    else
      (if rows[0] in orders && orders[rows[0]].refunds == [] then Share(orders[rows[0]], n) else 0)
      + FeesKept(orders, rows[1..], n)
  }

  lemma {:induction false} SplitsAddUp(orders: map<OrderId, Order>, l: seq<Entry>, rows: seq<OrderId>, n: int)
    requires forall i :: 0 <= i < |rows| ==>
               && rows[i] in orders && orders[rows[i]].paid.Some? && 0 <= orders[rows[i]].fee
               && Account(orders[rows[i]], Total(HeldOn(rows[i]), l), Total(PaidOn(rows[i]), l),
                          Total(RowsOn(rows[i]), l), n)
    ensures SumTotals(orders, rows) == LiveCredits(l, rows) + RefundsOn(orders, rows) + FeesKept(orders, rows, n)
    ensures FeesKept(orders, rows, n) >= 0
  {
    if rows != [] {
      var o := orders[rows[0]];
      assert o.refunds == [] || Sum(o.refunds) == o.total by {
        if o.refunds != [] { assert o.refunds[1..] == []; }
      }
      SplitsAddUp(orders, l, rows[1..], n);
    }
  }

  lemma {:induction false} LiveNonNegative(l: seq<Entry>, rows: seq<OrderId>)
    requires OrderRowsSane(l)
    ensures LiveCredits(l, rows) >= 0
  {
    if rows != [] {
      AmountsNonNegative(l, rows[0]);
      LiveNonNegative(l, rows[1..]);
    }
  }

  lemma {:induction false} AmountsNonNegative(l: seq<Entry>, id: OrderId)
    requires OrderRowsSane(l)
    ensures Total(HeldOn(id), l) >= 0 && Total(PaidOn(id), l) >= 0
  {
    if l != [] {
      assert OrderRowsSane(l[1..]);
      AmountsNonNegative(l[1..], id);
    }
  }

  /** The orders among these that have been paid for. */
  function PaidOf(orders: map<OrderId, Order>, rows: seq<OrderId>): seq<OrderId> {
    if rows == [] then []
    else
      var id := rows[|rows| - 1];
      PaidOf(orders, rows[..|rows| - 1]) + (if id in orders && orders[id].paid.Some? then [id] else [])
  }

  lemma PaidOfLast(orders: map<OrderId, Order>, rows: seq<OrderId>, id: OrderId)
    ensures PaidOf(orders, rows + [id]) == PaidOf(orders, rows) + PaidOf(orders, [id])
  {
    assert (rows + [id])[..|rows|] == rows;
    assert [id][..0] == [];
  }

  lemma {:induction false} PaidOfBoth(orders: map<OrderId, Order>, xs: seq<OrderId>, ys: seq<OrderId>)
    ensures PaidOf(orders, xs + ys) == PaidOf(orders, xs) + PaidOf(orders, ys)
    decreases |ys|
  {
    if ys == [] {
      assert xs + ys == xs;
    } else {
      hide *;
      var front, last := ys[..|ys| - 1], ys[|ys| - 1];
      assert ys == front + [last] && xs + ys == (xs + front) + [last];
      PaidOfBoth(orders, xs, front);
      PaidOfLast(orders, front, last);
      PaidOfLast(orders, xs + front, last);
    }
  }

  lemma {:induction false} PaidOfAll(orders: map<OrderId, Order>, rows: seq<OrderId>)
    ensures AllPaid(orders, rows) ==> PaidOf(orders, rows) == rows
    ensures NonePaid(orders, rows) ==> PaidOf(orders, rows) == []
    decreases |rows|
  {
    if rows != [] {
      var n := |rows| - 1;
      PaidOfAll(orders, rows[..n]);
      assert rows == rows[..n] + [rows[n]];
    }
  }

  /** What has been paid for on a reference is nothing, or what its charge covers. */
  lemma PaidIsPaying(t: State, ref: Ref)
    requires Charged(t)
    ensures var paid := PaidOf(t.orders, RowsOf(t.index, ref));
            && (paid == [] || (paid == Paying(t.orders, t.index, t.charges, ref) && AllPaid(t.orders, paid)))
  {
    hide Paying;
    var rows, paying := RowsOf(t.index, ref), Paying(t.orders, t.index, t.charges, ref);
    PaidOfAll(t.orders, rows);
    if !NonePaid(t.orders, rows) {
      assert ref in t.index;
      assert PaidAsOne(t.orders, t.index, t.charges, ref);
      assert rows == rows[..|paying|] + rows[|paying|..] && rows[..|paying|] == paying;
      PaidOfBoth(t.orders, paying, rows[|paying|..]);
      PaidOfAll(t.orders, paying);
      PaidOfAll(t.orders, rows[|paying|..]);
    }
  }

  lemma UnusedKept(s: State)
    requires Unused(s)
    ensures Kept(s)
  {
  }

  /** Conservation. In every disciplined run from an unused marketplace, once anything on a
      reference has been paid, the charge equals the live vendor credits of what has been paid,
      plus its refunds, plus the delivery fees the platform keeps. No order is refunded twice, and
      refunds never exceed the charge. */
  lemma Conservation(s: State, steps: seq<Step>, ref: Ref)
    requires Unused(s) && DisciplinedRun(s, steps)
    requires PaidOf(Run(s, steps).orders, RowsOf(Run(s, steps).index, ref)) != []
    ensures var t := Run(s, steps);
            var paid := PaidOf(t.orders, RowsOf(t.index, ref));
            && ref in t.charges
            && t.charges[ref] == LiveCredits(t.ledger, paid) + RefundsOn(t.orders, paid)
                + FeesKept(t.orders, paid, |paid|)
            && RefundsOn(t.orders, paid) <= t.charges[ref]
            && forall i :: 0 <= i < |paid| ==> paid[i] in t.orders && |t.orders[paid[i]].refunds| <= 1
  {
    hide *;
    UnusedKept(s);
    RunKept(s, steps);
    KeptConserves(Run(s, steps), ref);
  }

  /** What an invariant state knows of one of the paid orders. */
  lemma PaidAccountOf(t: State, ref: Ref, paid: seq<OrderId>, i: nat)
    requires Kept(t) && paid == Paying(t.orders, t.index, t.charges, ref) && AllPaid(t.orders, paid) && i < |paid|
    ensures && paid[i] in t.orders && t.orders[paid[i]].paid.Some? && 0 <= t.orders[paid[i]].fee
            && Account(t.orders[paid[i]], Total(HeldOn(paid[i]), t.ledger), Total(PaidOn(paid[i]), t.ledger),
                       Total(RowsOn(paid[i]), t.ledger), |paid|)
            && |t.orders[paid[i]].refunds| <= 1
  {
    hide *;
    KeptGives(t);
    RowsThere(t.orders, t.index, ref);
    PaidThere(t, ref, paid, i);
    ShapeAt(t, paid[i]);
    FeeSign(t.orders[paid[i]]);
    AccountAt(t, paid[i]);
    OneRefund(t.orders[paid[i]], Total(HeldOn(paid[i]), t.ledger), Total(PaidOn(paid[i]), t.ledger),
              Total(RowsOn(paid[i]), t.ledger), |paid|);
  }

  lemma PaidThere(t: State, ref: Ref, paid: seq<OrderId>, i: nat)
    requires paid == Paying(t.orders, t.index, t.charges, ref) && AllPaid(t.orders, paid) && i < |paid|
    ensures paid[i] in t.orders && t.orders[paid[i]].paid.Some?
    ensures |paid| <= |RowsOf(t.index, ref)| && paid[i] == RowsOf(t.index, ref)[i]
  {
  }

  lemma FeeSign(o: Order)
    requires OrderShape(o)
    ensures 0 <= o.fee
  {
  }

  lemma OneRefund(o: Order, held: int, paidOut: int, rows: int, n: int)
    requires Account(o, held, paidOut, rows, n)
    ensures |o.refunds| <= 1
  {
  }

  lemma KeptConserves(t: State, ref: Ref)
    requires Kept(t) && PaidOf(t.orders, RowsOf(t.index, ref)) != []
    ensures var paid := PaidOf(t.orders, RowsOf(t.index, ref));
            && ref in t.charges && t.charges[ref] == SumTotals(t.orders, paid)
            && t.charges[ref] == LiveCredits(t.ledger, paid) + RefundsOn(t.orders, paid)
                + FeesKept(t.orders, paid, |paid|)
            && RefundsOn(t.orders, paid) <= t.charges[ref]
            && forall i :: 0 <= i < |paid| ==> paid[i] in t.orders && |t.orders[paid[i]].refunds| <= 1
  {
    hide *;
    KeptGives(t);
    PaidIsPaying(t, ref);
    var paid := PaidOf(t.orders, RowsOf(t.index, ref));
    RowsSane(t.orders, t.index, t.ledger);
    forall i | 0 <= i < |paid|
      ensures && paid[i] in t.orders && t.orders[paid[i]].paid.Some? && 0 <= t.orders[paid[i]].fee
              && Account(t.orders[paid[i]], Total(HeldOn(paid[i]), t.ledger), Total(PaidOn(paid[i]), t.ledger),
                         Total(RowsOn(paid[i]), t.ledger), |paid|)
              && |t.orders[paid[i]].refunds| <= 1
    {
      PaidAccountOf(t, ref, paid, i);
    }
    PayingSums(t.orders, t.index, t.charges, ref);
    SplitsAddUp(t.orders, t.ledger, paid, |paid|);
    LiveNonNegative(t.ledger, paid);
  }
}
