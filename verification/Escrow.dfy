/** Escrow: one credit per order, a credit exactly for a payment, and when a delivered order
    may still hold its credit. */
module Escrow {
  import opened Base
  import opened Ledger
  import opened Orders
  import opened Market
  import opened Tables

  // ---------- One credit per order ----------

  /** In every interleaving an order has at most one ledger row, so reading any one of them
      (LIMIT 1) gives the order's escrow status. */
  lemma AtMostOneCredit(s: State, steps: seq<Step>, id: OrderId)
    requires TablesOk(s)
    ensures var l := Run(s, steps).ledger;
            && 0 <= Total(RowsOn(id), l) <= 1
            && forall i, j :: 0 <= i < |l| && 0 <= j < |l| && l[i].order == Some(id) && l[j].order == Some(id)
                ==> i == j
  {
    RunOk(s, steps);
    var t := Run(s, steps);
    if id in t.orders {
      forall i | 0 <= i < |t.ledger| && t.ledger[i].order == Some(id)
        ensures t.ledger[i].reference == CreditRef(t.orders[id].ref, id)
      {
        assert OwnCredit(t.ledger[i], t.orders);
      }
      OneRow(t.ledger, id, CreditRef(t.orders[id].ref, id));
    } else {
      forall i | 0 <= i < |t.ledger| ensures t.ledger[i].order != Some(id) {
        assert OwnCredit(t.ledger[i], t.orders);
      }
      NoRows(t.ledger, id);
    }
  }

  // ---------- A credit exactly for a payment ----------

  /** Distinct prefixes on one reference give distinct credit references everywhere. */
  lemma CreditRefInjective(r: Ref, a: OrderId, q: Ref, b: OrderId)
    requires CreditRef(r, a) == CreditRef(q, b)
    ensures r == q && a[..8] == b[..8]
  {
    var x := CreditRef(r, a);
    assert |x| == |r| + 9 == |q| + 9;
    assert r == x[..|r|] && q == x[..|q|];
    assert a[..8] == x[|r| + 1..] && b[..8] == x[|q| + 1..];
  }

  ghost predicate DistinctPrefixes(orders: map<OrderId, Order>) {
    forall a, b :: a in orders && b in orders && a != b && orders[a].ref == orders[b].ref ==> a[..8] != b[..8]
  }

  ghost predicate HasRowFor(l: seq<Entry>, id: OrderId) {
    exists i :: 0 <= i < |l| && l[i].order == Some(id)
  }

  /** Paid orders have their credit, and no one else holds the reference an unpaid one needs. */
  ghost predicate Matched(orders: map<OrderId, Order>, l: seq<Entry>) {
    && DistinctPrefixes(orders)
    && forall id :: id in orders ==>
         if orders[id].paid.Some? then HasRowFor(l, id) else !Taken(l, CreditRef(orders[id].ref, id))
  }

  /** What the credit references of a run need from outside: order ids whose prefixes differ
      within a reference, and deposits and payouts that do not use a credit's reference. */
  ghost predicate CleanReferences(s: State, a: Step) {
    match a
    case PlaceOrders(sid, ids) =>
      && DistinctPrefixes(Next(s, a).state.orders)
      && forall k :: 0 <= k < |ids| && ids[k] in Next(s, a).state.orders && ids[k] !in s.orders ==>
           !Taken(s.ledger, CreditRef(Next(s, a).state.orders[ids[k]].ref, ids[k]))
    case PayOut(_, _, token) => forall id :: id in s.orders ==> "WD_" + token != CreditRef(s.orders[id].ref, id)
    case Deposit(_, _, reference) => forall id :: id in s.orders ==> reference != CreditRef(s.orders[id].ref, id)
    case _ => true
  }

  ghost predicate CleanRun(s: State, steps: seq<Step>)
    decreases |steps|
  {
    steps != [] ==> CleanReferences(s, steps[0]) && CleanRun(Next(s, steps[0]).state, steps[1..])
  }

  lemma ApplyMatched(orders: map<OrderId, Order>, after: map<OrderId, Order>, l: seq<Entry>, id: OrderId, fx: Effect)
    requires Matched(orders, l) && after.Keys == orders.Keys
    requires forall x :: x in orders ==> after[x].paid == orders[x].paid && after[x].ref == orders[x].ref
    ensures Matched(after, Apply(l, id, fx))
  {
    var r := Apply(l, id, fx);
    assert forall i :: 0 <= i < |l| ==> r[i].order == l[i].order && r[i].reference == l[i].reference;
    forall x | x in after
      ensures if after[x].paid.Some? then HasRowFor(r, x) else !Taken(r, CreditRef(after[x].ref, x))
    {
      if after[x].paid.Some? {
        var i :| 0 <= i < |l| && l[i].order == Some(x);
        assert r[i].order == Some(x);
      }
    }
  }

  lemma InsertMatched(orders: map<OrderId, Order>, l: seq<Entry>, e: Entry)
    requires Matched(orders, l)
    requires forall id :: id in orders && orders[id].paid.None? ==> e.reference != CreditRef(orders[id].ref, id)
    ensures Matched(orders, Insert(l, e))
    ensures Matched(orders, l + [e])
  {
    forall id | id in orders
      ensures if orders[id].paid.Some? then HasRowFor(l + [e], id) else !Taken(l + [e], CreditRef(orders[id].ref, id))
    {
      if orders[id].paid.Some? {
        var i :| 0 <= i < |l| && l[i].order == Some(id);
        assert (l + [e])[i].order == Some(id);
      }
    }
  }

  lemma PayOneMatched(s: State, ref: Ref, id: OrderId, lone: bool)
    requires OrdersShape(s.orders) && Matched(s.orders, s.ledger)
    requires id in s.orders && s.orders[id].ref == ref
    ensures Matched(PayOne(s, ref, id, lone).orders, PayOne(s, ref, id, lone).ledger)
  {
    if AwaitsPayment(s.orders, id) {
      var t := PayOne(s, ref, id, lone);
      var o := s.orders[id];
      assert OrderShape(o);
      var e := CreditRow(o, id, ref, lone);
      assert !Taken(s.ledger, e.reference);
      assert t.ledger == s.ledger + [e];
      forall x | x in t.orders
        ensures if t.orders[x].paid.Some? then HasRowFor(t.ledger, x)
                else !Taken(t.ledger, CreditRef(t.orders[x].ref, x))
      {
        if x == id {
          assert t.ledger[|s.ledger|].order == Some(id);
        } else if t.orders[x].paid.Some? {
          var i :| 0 <= i < |s.ledger| && s.ledger[i].order == Some(x);
          assert t.ledger[i].order == Some(x);
        } else if e.reference == CreditRef(s.orders[x].ref, x) {
          CreditRefInjective(ref, id, s.orders[x].ref, x);
        }
      }
      assert DistinctPrefixes(t.orders);
    }
  }

  lemma {:induction false} PayAllMatched(s: State, ref: Ref, rows: seq<OrderId>, lone: bool)
    requires RowsOk(s.orders, s.index, s.ledger) && Matched(s.orders, s.ledger)
    requires forall i :: 0 <= i < |rows| ==> rows[i] in s.orders && s.orders[rows[i]].ref == ref
    ensures Matched(PayAll(s, ref, rows, lone).orders, PayAll(s, ref, rows, lone).ledger)
    decreases |rows|
  {
    hide Matched;
    if rows != [] {
      PayOneMatched(s, ref, rows[0], lone);
      PayOneOk(s, ref, rows[0], lone);
      PayAllMatched(PayOne(s, ref, rows[0], lone), ref, rows[1..], lone);
    }
  }

  lemma CommitMatched(s: State, sid: SessionId)
    requires TablesOk(s) && Matched(s.orders, s.ledger)
    ensures Matched(CommitConfirmStep(s, sid).state.orders, CommitConfirmStep(s, sid).state.ledger)
  {
    hide Matched, RowsOk;
    if sid in s.sessions && s.sessions[sid].Confirming? {
      PayAllMatched(Close(s, sid), s.sessions[sid].ref, s.sessions[sid].rows, s.sessions[sid].lone);
    }
  }

  lemma ActMatched(s: State, id: OrderId, m: Move)
    requires Matched(s.orders, s.ledger)
    ensures Matched(ActOn(s, id, m).state.orders, ActOn(s, id, m).state.ledger)
  {
    if id in s.orders {
      var held := HasHeld(s.ledger, id);
      var r := Act(s.orders[id], m, s.now, held);
      ActFollows(s.orders[id], m, s.now, held);
      ApplyMatched(s.orders, s.orders[id := r.order], s.ledger, id, r.fx);
    }
  }

  lemma PlaceMatched(s: State, sid: SessionId, ids: seq<OrderId>)
    requires TablesOk(s) && Matched(s.orders, s.ledger) && CleanReferences(s, PlaceOrders(sid, ids))
    ensures Matched(PlaceOrdersStep(s, sid, ids).state.orders, s.ledger)
  {
    hide RowsOk;
    NextPlaces(s, sid, ids);
    assert PlaceOrdersStep(s, sid, ids).reply.Ok? ==> CleanReferences(s, PlaceOrders(sid, ids));
    hide Next;
    var t := PlaceOrdersStep(s, sid, ids).state;
    if PlaceOrdersStep(s, sid, ids).reply.Ok? {
      Placed(s, sid, ids);
      hide PlaceOrdersStep, CreditRef, DistinctPrefixes;
      forall x | x in t.orders
        ensures if t.orders[x].paid.Some? then HasRowFor(s.ledger, x)
                else !Taken(s.ledger, CreditRef(t.orders[x].ref, x))
      {
        if x !in s.orders {
          var k :| 0 <= k < |ids| && ids[k] == x && t.orders[x] == NewOrder(s.sessions[sid].req, k, s.now);
          assert ids[k] in t.orders && ids[k] !in s.orders;
        }
      }
    }
  }

  lemma NextPlaces(s: State, sid: SessionId, ids: seq<OrderId>)
    ensures Next(s, PlaceOrders(sid, ids)) == PlaceOrdersStep(s, sid, ids)
  {
    hide PlaceOrdersStep;
  }

  lemma AbandonMatched(s: State)
    requires Matched(s.orders, s.ledger)
    ensures Matched(AbandonAll(s.orders, s.now), s.ledger)
  {
  }

  lemma SweepMatched(s: State, sid: SessionId)
    requires Matched(s.orders, s.ledger)
    ensures Matched(SweepStep(s, sid).state.orders, SweepStep(s, sid).state.ledger)
  {
    hide Matched, ActOn;
    if sid in s.sessions && s.sessions[sid].Sweeping? && s.sessions[sid].pos < |s.sessions[sid].rows| {
      ActMatched(s, s.sessions[sid].rows[s.sessions[sid].pos], SweepMark);
      ActMatched(s, s.sessions[sid].rows[s.sessions[sid].pos], SweepRelease);
    }
  }

  lemma MoneyMatched(s: State, a: Step)
    requires OrdersShape(s.orders) && Matched(s.orders, s.ledger) && CleanReferences(s, a)
    requires a.PayOut? || a.Deposit?
    ensures Matched(Next(s, a).state.orders, Next(s, a).state.ledger)
  {
    var e := MoneyAdds(s, a);
    MoneyClear(s, a, e);
    hide Next, Matched, CleanReferences, CreditRef;
    InsertMatched(s.orders, s.ledger, e);
  }

  lemma MoneyClear(s: State, a: Step, e: Entry)
    requires CleanReferences(s, a) && (a.PayOut? || a.Deposit?)
    requires e.reference == if a.PayOut? then "WD_" + a.token else a.reference
    ensures forall id :: id in s.orders ==> e.reference != CreditRef(s.orders[id].ref, id)
  {
    hide Next, CreditRef;
  }

  lemma StepMatched(s: State, a: Step)
    requires TablesOk(s) && Matched(s.orders, s.ledger) && CleanReferences(s, a)
    ensures Matched(Next(s, a).state.orders, Next(s, a).state.ledger)
  {
    hide *;
    if a.VendorWrites? || a.OnOrder? || a.Sweep? {
      OrderStepIs(s, a);
      match a {
        case VendorWrites(id, store, status) => VendorMatched(s, id, store, status);
        case OnOrder(id, move) => ActMatched(s, id, move);
        case Sweep(sid) => SweepMatched(s, sid);
      }
    } else if a.PlaceOrders? || a.CommitConfirm? || a.MarkAbandoned? {
      CheckoutStepIs(s, a);
      match a {
        case PlaceOrders(sid, ids) => PlaceMatched(s, sid, ids);
        case CommitConfirm(sid) => CommitMatched(s, sid);
        case MarkAbandoned => AbandonMatched(s);
      }
    } else if a.PayOut? || a.Deposit? {
      MoneyMatchedAt(s, a);
    } else {
      IsElsewhere(a);
      QuietRows(s, a);
    }
  }

  lemma MoneyMatchedAt(s: State, a: Step)
    requires TablesOk(s) && Matched(s.orders, s.ledger) && CleanReferences(s, a)
    requires a.PayOut? || a.Deposit?
    ensures Matched(Next(s, a).state.orders, Next(s, a).state.ledger)
  {
    hide Matched, CleanReferences, Next;
    MoneyMatched(s, a);
  }

  lemma VendorMatched(s: State, id: OrderId, store: StoreId, status: OrderStatus)
    requires Matched(s.orders, s.ledger)
    ensures var t := VendorWritesStep(s, id, store, status).state; Matched(t.orders, t.ledger)
  {
    hide Matched, ActOn;
    if id in s.orders { ActMatched(s, id, VendorSets(store, status, FulfilmentOf(s.orders, id))); }
  }

  lemma {:induction false} RunMatched(s: State, steps: seq<Step>)
    requires TablesOk(s) && Matched(s.orders, s.ledger) && CleanRun(s, steps)
    ensures Matched(Run(s, steps).orders, Run(s, steps).ledger)
    decreases |steps|
  {
    hide Matched, TablesOk, CleanReferences, Next;
    if steps != [] {
      StepMatched(s, steps[0]);
      StepOk(s, steps[0]);
      RunMatched(Next(s, steps[0]).state, steps[1..]);
    }
  }

  /** With clean references, an order has a credit exactly when it has been paid for, in
      every interleaving of browsers, webhooks, sweeps and administrators. */
  lemma CreditExactlyWhenPaid(s: State, steps: seq<Step>, id: OrderId)
    requires Unused(s) && CleanRun(s, steps) && id in Run(s, steps).orders
    ensures var t := Run(s, steps);
            && (t.orders[id].paid.Some? <==> Total(RowsOn(id), t.ledger) == 1)
            && (t.orders[id].paid.None? <==> Total(RowsOn(id), t.ledger) == 0)
  {
    hide Run, CleanRun;
    RunOk(s, steps);
    RunMatched(s, steps);
    AtMostOneCredit(s, steps, id);
    PaidIffRow(Run(s, steps), id);
  }

  lemma PaidIffRow(t: State, id: OrderId)
    requires TablesOk(t) && Matched(t.orders, t.ledger) && id in t.orders && 0 <= Total(RowsOn(id), t.ledger) <= 1
    ensures t.orders[id].paid.Some? <==> Total(RowsOn(id), t.ledger) == 1
  {
    hide Total, DistinctPrefixes;
    if t.orders[id].paid.Some? {
      var i :| 0 <= i < |t.ledger| && t.ledger[i].order == Some(id);
      HasRow(t.ledger, id, i);
    } else {
      forall i | 0 <= i < |t.ledger| ensures t.ledger[i].order != Some(id) {
        assert OwnCredit(t.ledger[i], t.orders);
      }
      NoRows(t.ledger, id);
    }
  }

  /** Without clean references the promise fails exactly when the reference is already in
      the ledger: the payment is recorded and the vendor is not credited. */
  lemma CreditDroppedWhenTaken(s: State, id: OrderId, lone: bool)
    requires TablesOk(s) && AwaitsPayment(s.orders, id)
    ensures var ref := s.orders[id].ref;
            var t := PayOne(s, ref, id, lone);
            && t.orders[id].paid == Some(s.now)
            && (Total(RowsOn(id), t.ledger) == 1 <==> !Taken(s.ledger, CreditRef(ref, id)))
  {
    var ref := s.orders[id].ref;
    assert OrderShape(s.orders[id]);
    forall i | 0 <= i < |s.ledger| ensures s.ledger[i].order != Some(id) {
      assert OwnCredit(s.ledger[i], s.orders);
    }
    NoRows(s.ledger, id);
    TotalAppend(RowsOn(id), s.ledger, CreditRow(s.orders[id], id, ref, lone));
  }

  // ---------- Delivered with the credit still held ----------

  ghost predicate Between(sessions: map<SessionId, Session>, sid: SessionId, id: OrderId) {
    && sid in sessions && sessions[sid].Sweeping? && sessions[sid].between
    && sessions[sid].pos < |sessions[sid].rows| && sessions[sid].rows[sessions[sid].pos] == id
  }

  /** A delivered order still holds its credit only while some sweep stands between marking
      it and releasing it. */
  ghost predicate Gap(s: State) {
    forall id :: id in s.orders && s.orders[id].status.Delivered? && HasHeld(s.ledger, id) ==>
      exists sid :: Between(s.sessions, sid, id)
  }

  lemma HeldShrinks(l: seq<Entry>, id: OrderId, fx: Effect, other: OrderId)
    ensures HasHeld(Apply(l, id, fx), other) ==> HasHeld(l, other)
    ensures fx.Release? ==> !HasHeld(Apply(l, id, fx), id)
  {
    hide Apply;
    var r := Apply(l, id, fx);
    assert forall i :: 0 <= i < |l| ==> r[i] == Shift(l[i], id, fx);
    if HasHeld(r, other) {
      var i :| 0 <= i < |r| && r[i].order == Some(other) && r[i].status.Held?;
      assert l[i].order == Some(other) && l[i].status.Held?;
    }
  }

  /** Any action but the sweep's mark delivers an order only by releasing its credit. */
  lemma DeliveryReleases(o: Order, m: Move, now: int, held: bool)
    requires Act(o, m, now, held).order.status.Delivered? && !o.status.Delivered? && !m.SweepMark?
    ensures Act(o, m, now, held).fx.Release?
  {
  }

  /** What one action can add to the gap: nothing, except the order a sweep just marked. */
  lemma ActGap(s: State, id: OrderId, m: Move, x: OrderId)
    requires x in ActOn(s, id, m).state.orders
    requires ActOn(s, id, m).state.orders[x].status.Delivered? && HasHeld(ActOn(s, id, m).state.ledger, x)
    ensures x in s.orders && HasHeld(s.ledger, x)
    ensures m.SweepRelease? ==> x != id
    ensures (m.SweepMark? && x == id) || s.orders[x].status.Delivered?
  {
    if id in s.orders {
      var held := HasHeld(s.ledger, id);
      var r := Act(s.orders[id], m, s.now, held);
      HeldShrinks(s.ledger, id, r.fx, x);
      if x == id && !s.orders[id].status.Delivered? && !m.SweepMark? {
        DeliveryReleases(s.orders[id], m, s.now, held);
      }
    }
  }

  lemma ActKeepsGap(s: State, id: OrderId, m: Move)
    requires Gap(s) && !m.SweepMark?
    ensures Gap(ActOn(s, id, m).state)
  {
    hide ActOn;
    var t := ActOn(s, id, m).state;
    forall x | x in t.orders && t.orders[x].status.Delivered? && HasHeld(t.ledger, x)
      ensures exists sid :: Between(t.sessions, sid, x)
    {
      ActGap(s, id, m, x);
    }
  }

  lemma SweepKeepsGap(s: State, sid: SessionId)
    requires Gap(s)
    ensures Gap(SweepStep(s, sid).state)
  {
    if sid in s.sessions && s.sessions[sid].Sweeping? {
      var w := s.sessions[sid];
      if w.pos < |w.rows| {
        var id, m := w.rows[w.pos], if w.between then SweepRelease else SweepMark;
        var next := Sweeping(w.rows, if w.between then w.pos + 1 else w.pos, !w.between);
        assert SweepStep(s, sid).state == WithSession(ActOn(s, id, m).state, sid, next);
        hide SweepStep, ActOn, HasHeld, Gap;
        MoveKeepsGap(s, sid);
      } else {
        EndKeepsGap(s, sid);
      }
    }
  }

  lemma EndKeepsGap(s: State, sid: SessionId)
    requires Gap(s) && sid in s.sessions && s.sessions[sid].Sweeping? && s.sessions[sid].pos >= |s.sessions[sid].rows|
    ensures Gap(Close(s, sid))
  {
    hide HasHeld;
    forall x | x in s.orders && s.orders[x].status.Delivered? && HasHeld(s.ledger, x)
      ensures exists other :: Between(s.sessions - {sid}, other, x)
    {
      var other :| Between(s.sessions, other, x);
      assert Between(s.sessions - {sid}, other, x);
    }
  }

  lemma MoveKeepsGap(s: State, sid: SessionId)
    requires Gap(s) && sid in s.sessions && s.sessions[sid].Sweeping? && s.sessions[sid].pos < |s.sessions[sid].rows|
    ensures var w := s.sessions[sid];
            var m := if w.between then SweepRelease else SweepMark;
            var next := Sweeping(w.rows, if w.between then w.pos + 1 else w.pos, !w.between);
            Gap(WithSession(ActOn(s, w.rows[w.pos], m).state, sid, next))
  {
    hide ActOn, HasHeld;
    var w := s.sessions[sid];
    var m := if w.between then SweepRelease else SweepMark;
    var next := Sweeping(w.rows, if w.between then w.pos + 1 else w.pos, !w.between);
    var t := WithSession(ActOn(s, w.rows[w.pos], m).state, sid, next);
    forall x | x in t.orders && t.orders[x].status.Delivered? && HasHeld(t.ledger, x)
      ensures exists other :: Between(t.sessions, other, x)
    {
      ActGap(s, w.rows[w.pos], m, x);
      if m.SweepMark? && x == w.rows[w.pos] {
        assert Between(t.sessions, sid, x);
      } else {
        var other :| Between(s.sessions, other, x);
        assert Between(t.sessions, other, x);
      }
    }
  }

  lemma PayOneKeepsGap(s: State, ref: Ref, id: OrderId, lone: bool)
    requires Gap(s)
    ensures Gap(PayOne(s, ref, id, lone))
  {
    if AwaitsPayment(s.orders, id) {
      var t := PayOne(s, ref, id, lone);
      hide Gap, RedeemAll, CreditRow;
      forall x | x in t.orders && t.orders[x].status.Delivered? && HasHeld(t.ledger, x)
        ensures x in s.orders && s.orders[x].status.Delivered? && HasHeld(s.ledger, x)
      {
        assert x != id;
        HeldBefore(s.ledger, CreditRow(s.orders[id], id, ref, lone), id, x);
      }
      hide PayOne, HasHeld;
      GapStable(s, t);
    }
  }

  lemma HeldBefore(l: seq<Entry>, e: Entry, id: OrderId, x: OrderId)
    requires x != id && e.order == Some(id) && HasHeld(Insert(l, e), x)
    ensures HasHeld(l, x)
  {
    var r := Insert(l, e);
    var i :| 0 <= i < |r| && r[i].order == Some(x) && r[i].status.Held?;
    assert i < |l| && l[i] == r[i];
  }

  lemma {:induction false} PayAllKeepsGap(s: State, ref: Ref, rows: seq<OrderId>, lone: bool)
    requires Gap(s)
    ensures Gap(PayAll(s, ref, rows, lone))
    decreases |rows|
  {
    hide Gap;
    if rows != [] {
      PayOneKeepsGap(s, ref, rows[0], lone);
      PayAllKeepsGap(PayOne(s, ref, rows[0], lone), ref, rows[1..], lone);
    }
  }

  /** No sweep in flight is touched. */
  ghost predicate SweepsStay(before: map<SessionId, Session>, after: map<SessionId, Session>) {
    forall sid :: sid in before && before[sid].Sweeping? ==> sid in after && after[sid] == before[sid]
  }

  lemma CheckoutSweeps(s: State, sid: SessionId, req: Checkout)
    ensures SweepsStay(s.sessions, BeginCheckoutStep(s, sid, req).state.sessions)
  {
    hide ValidRequest;
  }

  lemma PriceSweeps(s: State, sid: SessionId)
    ensures SweepsStay(s.sessions, PriceLineStep(s, sid).state.sessions)
  {
    hide CheckLine;
  }

  lemma PlaceSweeps(s: State, sid: SessionId, ids: seq<OrderId>)
    ensures SweepsStay(s.sessions, PlaceOrdersStep(s, sid, ids).state.sessions)
    ensures PlaceOrdersStep(s, sid, ids).reply.Err? ==> PlaceOrdersStep(s, sid, ids).state.orders == s.orders
  {
    hide InsertOrders, FreshIds, Insertable, InsertError;
  }

  lemma ConfirmSweeps(s: State, sid: SessionId, ref: Ref, rows: seq<OrderId>)
    ensures SweepsStay(s.sessions, BeginConfirmStep(s, sid, ref, rows).state.sessions)
  {
    hide SumTotals, AwaitsPayment;
  }

  lemma BeginSweeps(s: State, sid: SessionId, rows: seq<OrderId>)
    ensures SweepsStay(s.sessions, BeginSweepStep(s, sid, rows).state.sessions)
  {
    hide DueRows;
  }

  lemma GapStable(s: State, t: State)
    requires Gap(s)
    requires SweepsStay(s.sessions, t.sessions)
    requires forall x :: x in t.orders && t.orders[x].status.Delivered? && HasHeld(t.ledger, x) ==>
               x in s.orders && s.orders[x].status.Delivered? && HasHeld(s.ledger, x)
    ensures Gap(t)
  {
    forall x | x in t.orders && t.orders[x].status.Delivered? && HasHeld(t.ledger, x)
      ensures exists sid :: Between(t.sessions, sid, x)
    {
      var sid :| Between(s.sessions, sid, x);
      assert Between(t.sessions, sid, x);
    }
  }

  lemma HeldAfterCompleted(l: seq<Entry>, e: Entry, id: OrderId)
    requires e.status.Completed?
    ensures HasHeld(l + [e], id) ==> HasHeld(l, id)
  {
    if HasHeld(l + [e], id) {
      var i :| 0 <= i < |l + [e]| && (l + [e])[i].order == Some(id) && (l + [e])[i].status.Held?;
      assert i < |l| && l[i] == (l + [e])[i];
    }
  }

  lemma MoneyKeepsGap(s: State, a: Step)
    requires Gap(s) && (a.PayOut? || a.Deposit?)
    ensures Gap(Next(s, a).state)
  {
    var e := MoneyAdds(s, a);
    hide Gap, Next;
    var t := Next(s, a).state;
    forall id: OrderId ensures HasHeld(t.ledger, id) ==> HasHeld(s.ledger, id) {
      HeldAfterCompleted(s.ledger, e, id);
    }
    hide HasHeld;
    GapStable(s, t);
  }

  lemma PlaceKeepsGap(s: State, sid: SessionId, ids: seq<OrderId>)
    requires Gap(s)
    ensures Gap(PlaceOrdersStep(s, sid, ids).state)
  {
    hide Gap;
    var out := PlaceOrdersStep(s, sid, ids);
    PlaceSweeps(s, sid, ids);
    if out.reply.Ok? {
      Placed(s, sid, ids);
      hide PlaceOrdersStep;
      assert forall x :: x in out.state.orders && x !in s.orders ==> out.state.orders[x].status.AwaitingPayment?;
      hide NewOrder;
    }
    GapStable(s, out.state);
  }

  lemma CommitKeepsGap(s: State, sid: SessionId)
    requires Gap(s)
    ensures Gap(CommitConfirmStep(s, sid).state)
  {
    hide Gap, PayAll;
    if sid in s.sessions && s.sessions[sid].Confirming? {
      var c := s.sessions[sid];
      GapStable(s, Close(s, sid));
      PayAllKeepsGap(Close(s, sid), c.ref, c.rows, c.lone);
    }
  }

  lemma QuietKeepsGap(s: State, a: Step)
    requires Gap(s)
    requires a.BeginCheckout? || a.PriceLine? || a.BeginConfirm? || a.BeginSweep?
    ensures Gap(Next(s, a).state)
  {
    hide Gap, Next, SweepsStay;
    QuietRows(s, a);
    QuietSweeps(s, a);
    GapStable(s, Next(s, a).state);
  }

  lemma QuietSweeps(s: State, a: Step)
    requires a.BeginCheckout? || a.PriceLine? || a.BeginConfirm? || a.BeginSweep?
    ensures SweepsStay(s.sessions, Next(s, a).state.sessions)
  {
    hide SweepsStay, BeginCheckoutStep, PriceLineStep, BeginConfirmStep, BeginSweepStep;
    match a
    case BeginCheckout(sid, req) => CheckoutSweeps(s, sid, req);
    case PriceLine(sid) => PriceSweeps(s, sid);
    case BeginConfirm(sid, ref, rows) => ConfirmSweeps(s, sid, ref, rows);
    case BeginSweep(sid, rows) => BeginSweeps(s, sid, rows);
  }

  lemma VendorKeepsGap(s: State, id: OrderId, store: StoreId, status: OrderStatus)
    requires Gap(s)
    ensures Gap(VendorWritesStep(s, id, store, status).state)
  {
    hide Gap, ActOn;
    if id in s.orders { ActKeepsGap(s, id, VendorSets(store, status, FulfilmentOf(s.orders, id))); }
  }

  lemma StepKeepsGap(s: State, a: Step)
    requires Gap(s)
    ensures Gap(Next(s, a).state)
  {
    hide Gap, CreateOfferStep, BuyerMoveStep, VendorMoveStep, ExpireAll, BeginCheckoutStep, PriceLineStep,
         PlaceOrdersStep, BeginConfirmStep, CommitConfirmStep, AbandonAll, VendorWritesStep, ActOn,
         BeginSweepStep, SweepStep, WithdrawStep, DepositStep;
    match a
    case PlaceOrders(sid, ids) => PlaceKeepsGap(s, sid, ids);
    case CommitConfirm(sid) => CommitKeepsGap(s, sid);
    case MarkAbandoned => AbandonKeepsGap(s);
    case VendorWrites(id, store, status) => VendorKeepsGap(s, id, store, status);
    case OnOrder(id, move) => ActKeepsGap(s, id, if move.SweepMark? then SweepRelease else move);
    case Sweep(sid) => SweepKeepsGap(s, sid);
    case PayOut(_, _, _) => MoneyKeepsGap(s, a);
    case Deposit(_, _, _) => MoneyKeepsGap(s, a);
    case BeginCheckout(_, _) => QuietKeepsGap(s, a);
    case PriceLine(_) => QuietKeepsGap(s, a);
    case BeginConfirm(_, _, _) => QuietKeepsGap(s, a);
    case BeginSweep(_, _) => QuietKeepsGap(s, a);
    case _ => GapStable(s, Next(s, a).state);
  }

  lemma AbandonKeepsGap(s: State)
    requires Gap(s)
    ensures Gap(Next(s, MarkAbandoned).state)
  {
    hide Gap, HasHeld;
    CheckoutStepIs(s, MarkAbandoned);
    hide Next;
    GapStable(s, s.(orders := AbandonAll(s.orders, s.now)));
  }

  lemma {:induction false} DeliveredButHeld(s: State, steps: seq<Step>)
    requires Gap(s)
    ensures Gap(Run(s, steps))
    decreases |steps|
  {
    hide Gap, Next;
    if steps != [] {
      StepKeepsGap(s, steps[0]);
      DeliveredButHeld(Next(s, steps[0]).state, steps[1..]);
    }
  }

  /** From an unused marketplace: a delivered order whose credit is still pending has been
      marked by a sweep that has yet to release it. */
  lemma HeldOnlyMidSweep(s: State, steps: seq<Step>, id: OrderId)
    requires Unused(s)
    requires var t := Run(s, steps); id in t.orders && t.orders[id].status.Delivered? && HasHeld(t.ledger, id)
    ensures exists sid :: Between(Run(s, steps).sessions, sid, id)
  {
    DeliveredButHeld(s, steps);
  }
}
