/** The buyer's week: unless the buyer confirms or an administrator releases by hand, a vendor is
    paid for an order only when some dispatch of it lies more than seven days back. */
module Waiting {
  import opened Base
  import opened Ledger
  import opened Orders
  import opened Market
  import opened Tables
  import opened Payments

  // ---------- What a run has seen ----------

  /** The step sends the order: from the hub, or by its vendor, or out for collection. */
  ghost predicate Sends(s: State, a: Step, id: OrderId) {
    && Next(s, a).reply.Ok?
    && (|| a == OnOrder(id, Ship)
        || (a.VendorWrites? && a.order == id && (a.status == Shipped || a.status == ReadyForCollection)))
  }

  /** The buyer confirms the delivery, or an administrator releases the money. */
  ghost predicate Answers(s: State, a: Step, id: OrderId) {
    && Next(s, a).reply.Ok?
    && a.OnOrder? && a.order == id && (a.move.ConfirmDelivery? || a.move == ReleaseEscrow)
  }

  ghost predicate SentBefore(s: State, steps: seq<Step>, id: OrderId, deadline: int)
    decreases |steps|
  {
    steps != [] &&
    ((Sends(s, steps[0], id) && s.now < deadline) || SentBefore(Next(s, steps[0]).state, steps[1..], id, deadline))
  }

  ghost predicate Answered(s: State, steps: seq<Step>, id: OrderId)
    decreases |steps|
  {
    steps != [] && (Answers(s, steps[0], id) || Answered(Next(s, steps[0]).state, steps[1..], id))
  }

  // ---------- The same, gathered on the way ----------

  datatype Seen = Seen(sent: set<(OrderId, int)>, answered: set<OrderId>)

  ghost function Sent(s: State, a: Step): set<(OrderId, int)> {
    if a.OnOrder? && Sends(s, a, a.order) then {(a.order, s.now)}
    else if a.VendorWrites? && Sends(s, a, a.order) then {(a.order, s.now)}
    else {}
  }

  ghost function More(h: Seen, s: State, a: Step): Seen {
    Seen(h.sent + Sent(s, a), h.answered + (if a.OnOrder? && Answers(s, a, a.order) then {a.order} else {}))
  }

  ghost function Past(h: Seen, s: State, steps: seq<Step>): Seen
    decreases |steps|
  {
    if steps == [] then h else Past(More(h, s, steps[0]), Next(s, steps[0]).state, steps[1..])
  }

  /** Some dispatch lies more than seven days back. */
  ghost predicate LongSent(h: Seen, id: OrderId, now: int) {
    exists d :: (id, d) in h.sent && d + 7 * 24 * 3600 < now
  }

  ghost predicate Due(h: Seen, e: Entry, now: int) {
    e.order.Some? && e.status.Completed? ==> e.order.value in h.answered || LongSent(h, e.order.value, now)
  }

  /** A stored dispatch was a dispatch, a sweep in flight waited, and so did every released credit
      that nobody answered for. */
  ghost predicate Waited(h: Seen, s: State) {
    && (forall id :: id in s.orders && s.orders[id].dispatched.Some? ==> (id, s.orders[id].dispatched.value) in h.sent)
    && (forall i :: 0 <= i < |s.ledger| ==> Due(h, s.ledger[i], s.now))
    && SweepsWaited(h, s.sessions, s.now)
  }

  ghost predicate SweepsWaited(h: Seen, sessions: map<SessionId, Session>, now: int) {
    forall sid, i :: sid in sessions && sessions[sid].Sweeping? && 0 <= i < |sessions[sid].rows| ==>
      LongSent(h, sessions[sid].rows[i], now)
  }

  // ---------- More is seen, more time passes ----------

  lemma StillLong(h: Seen, g: Seen, id: OrderId, now: int, later: int)
    requires h.sent <= g.sent && now <= later && LongSent(h, id, now)
    ensures LongSent(g, id, later)
  {
    var d :| (id, d) in h.sent && d + 7 * 24 * 3600 < now;
    assert (id, d) in g.sent;
  }

  lemma StillDue(h: Seen, g: Seen, e: Entry, now: int, later: int)
    requires h.sent <= g.sent && h.answered <= g.answered && now <= later && Due(h, e, now)
    ensures Due(g, e, later)
  {
    if e.order.Some? && LongSent(h, e.order.value, now) { StillLong(h, g, e.order.value, now, later); }
  }

  lemma StillSweeping(h: Seen, g: Seen, sessions: map<SessionId, Session>, now: int, later: int)
    requires h.sent <= g.sent && now <= later && SweepsWaited(h, sessions, now)
    ensures SweepsWaited(g, sessions, later)
  {
    hide LongSent;
    forall sid, i | sid in sessions && sessions[sid].Sweeping? && 0 <= i < |sessions[sid].rows|
      ensures LongSent(g, sessions[sid].rows[i], later)
    {
      StillLong(h, g, sessions[sid].rows[i], now, later);
    }
  }

  lemma StillWaited(h: Seen, g: Seen, s: State, later: int)
    requires Waited(h, s) && h.sent <= g.sent && h.answered <= g.answered && s.now <= later
    ensures Waited(g, s.(now := later))
  {
    StillSweeping(h, g, s.sessions, s.now, later);
    hide LongSent, SweepsWaited, Due;
    forall i | 0 <= i < |s.ledger| ensures Due(g, s.ledger[i], later) {
      StillDue(h, g, s.ledger[i], s.now, later);
    }
  }

  // ---------- One order's action ----------

  lemma ActSends(o: Order, m: Move, now: int, held: bool)
    ensures var r := Act(o, m, now, held);
            && (r.order.dispatched != o.dispatched ==>
                  && r.order.dispatched == Some(now) && r.reply.Ok?
                  && (m == Ship || (m.VendorSets? && (m.status == Shipped || m.status == ReadyForCollection))))
            && (r.fx.Release? ==> m == SweepRelease || (r.reply.Ok? && (m.ConfirmDelivery? || m == ReleaseEscrow)))
  {
  }

  /** What an action needs to have been seen. */
  ghost predicate Covers(g: Seen, s: State, id: OrderId, m: Move) {
    var reply := ActOn(s, id, m).reply;
    && (reply.Ok? && m == Ship ==> (id, s.now) in g.sent)
    && (reply.Ok? && m.VendorSets? && (m.status == Shipped || m.status == ReadyForCollection) ==>
          (id, s.now) in g.sent)
    && (reply.Ok? && (m.ConfirmDelivery? || m == ReleaseEscrow) ==> id in g.answered)
    && (m == SweepRelease ==> LongSent(g, id, s.now))
  }

  lemma ReleasedRows(l: seq<Entry>, id: OrderId, fx: Effect, g: Seen, now: int)
    requires forall i :: 0 <= i < |l| ==> Due(g, l[i], now)
    requires fx.Release? ==> id in g.answered || LongSent(g, id, now)
    ensures forall i :: 0 <= i < |l| ==> Due(g, Apply(l, id, fx)[i], now)
  {
    hide Apply, LongSent;
    forall i | 0 <= i < |l| ensures Due(g, Apply(l, id, fx)[i], now) {
      assert Due(g, l[i], now);
    }
  }

  lemma ActWaited(g: Seen, s: State, id: OrderId, m: Move)
    requires Waited(g, s) && Covers(g, s, id, m)
    ensures Waited(g, ActOn(s, id, m).state)
  {
    hide LongSent, SweepsWaited, Due, Act, HasHeld, Apply;
    if id in s.orders {
      var r := Act(s.orders[id], m, s.now, HasHeld(s.ledger, id));
      ActSends(s.orders[id], m, s.now, HasHeld(s.ledger, id));
      ReleasedRows(s.ledger, id, r.fx, g, s.now);
    }
  }

  // ---------- The machine's steps ----------

  lemma WrittenWaited(h: Seen, s: State, id: OrderId, store: StoreId, status: OrderStatus)
    requires Waited(h, s)
    ensures Waited(More(h, s, VendorWrites(id, store, status)), Next(s, VendorWrites(id, store, status)).state)
  {
    var a := VendorWrites(id, store, status);
    var g := More(h, s, a);
    hide Waited, ActOn, LongSent, VendorMaySet;
    StillWaited(h, g, s, s.now);
    assert Next(s, a) == VendorWritesStep(s, id, store, status);
    if id in s.orders {
      ActWaited(g, s, id, VendorSets(store, status, FulfilmentOf(s.orders, id)));
    } else {
      assert s.(now := s.now) == s;
    }
  }

  lemma OnOrderWaited(h: Seen, s: State, id: OrderId, m: Move)
    requires Waited(h, s)
    ensures Waited(More(h, s, OnOrder(id, m)), Next(s, OnOrder(id, m)).state)
  {
    var a := OnOrder(id, m);
    var g := More(h, s, a);
    StillWaited(h, g, s, s.now);
    hide Waited, ActOn, LongSent;
    if m.VendorSets? || m.SweepMark? || m.SweepRelease? {
      assert s.(now := s.now) == s;
    } else {
      ActWaited(g, s, id, m);
    }
  }

  lemma SweepWaited(h: Seen, s: State, sid: SessionId)
    requires Waited(h, s)
    ensures Waited(h, SweepStep(s, sid).state)
  {
    hide ActOn, LongSent, Due;
    if sid in s.sessions && s.sessions[sid].Sweeping? && s.sessions[sid].pos < |s.sessions[sid].rows| {
      var w := s.sessions[sid];
      var id, m := w.rows[w.pos], if w.between then SweepRelease else SweepMark;
      assert LongSent(h, id, s.now);
      ActWaited(h, s, id, m);
      hide Waited;
      SweepMoves(h, ActOn(s, id, m).state, sid, w, if w.between then w.pos + 1 else w.pos);
    } else {
      SweepEnds(h, s, sid);
    }
  }

  lemma SweepMoves(h: Seen, t: State, sid: SessionId, w: Session, pos: nat)
    requires Waited(h, t) && sid in t.sessions && t.sessions[sid] == w && w.Sweeping?
    ensures Waited(h, WithSession(t, sid, Sweeping(w.rows, pos, !w.between)))
  {
    hide LongSent, Due;
  }

  lemma SweepEnds(h: Seen, s: State, sid: SessionId)
    requires Waited(h, s)
    ensures Waited(h, Close(s, sid))
  {
    hide LongSent, Due;
  }

  lemma QuietWaited(h: Seen, s: State, t: State)
    requires Waited(h, s) && t.now == s.now
    requires forall id :: id in t.orders && t.orders[id].dispatched.Some? ==>
               id in s.orders && s.orders[id].dispatched == t.orders[id].dispatched
    requires |s.ledger| <= |t.ledger| && forall i :: 0 <= i < |s.ledger| ==> t.ledger[i] == s.ledger[i]
    requires forall i :: |s.ledger| <= i < |t.ledger| ==> !(t.ledger[i].order.Some? && t.ledger[i].status.Completed?)
    requires forall sid :: sid in t.sessions && t.sessions[sid].Sweeping? ==>
               sid in s.sessions && s.sessions[sid] == t.sessions[sid]
    ensures Waited(h, t)
  {
    hide LongSent;
  }

  /** No sweep is new, and none is touched. */
  ghost predicate NoNewSweep(before: map<SessionId, Session>, after: map<SessionId, Session>) {
    forall sid :: sid in after && after[sid].Sweeping? ==> sid in before && before[sid] == after[sid]
  }

  lemma OpensNoSweep(s: State, a: Step)
    requires a.BeginCheckout? || a.PriceLine? || a.BeginConfirm?
    ensures NoNewSweep(s.sessions, Next(s, a).state.sessions)
    ensures Next(s, a).state.now == s.now
  {
    hide BeginCheckoutStep, PriceLineStep, BeginConfirmStep;
    match a
    case BeginCheckout(sid, req) => CheckoutNoSweep(s, sid, req);
    case PriceLine(sid) => PriceNoSweep(s, sid);
    case BeginConfirm(sid, ref, rows) => ConfirmNoSweep(s, sid, ref, rows);
  }

  lemma CheckoutNoSweep(s: State, sid: SessionId, req: Checkout)
    ensures NoNewSweep(s.sessions, BeginCheckoutStep(s, sid, req).state.sessions)
  {
    hide ValidRequest;
  }

  lemma PriceNoSweep(s: State, sid: SessionId)
    ensures NoNewSweep(s.sessions, PriceLineStep(s, sid).state.sessions)
  {
    hide CheckLine;
  }

  lemma ConfirmNoSweep(s: State, sid: SessionId, ref: Ref, rows: seq<OrderId>)
    ensures NoNewSweep(s.sessions, BeginConfirmStep(s, sid, ref, rows).state.sessions)
  {
    hide SumTotals, AwaitsPayment, RowsOf;
  }

  lemma PlaceNoSweep(s: State, sid: SessionId, ids: seq<OrderId>)
    ensures NoNewSweep(s.sessions, PlaceOrdersStep(s, sid, ids).state.sessions)
  {
    hide InsertOrders, FreshIds, Insertable, InsertError;
  }

  lemma PlaceUnsent(s: State, sid: SessionId, ids: seq<OrderId>)
    ensures var t := PlaceOrdersStep(s, sid, ids).state;
            forall id :: id in t.orders && t.orders[id].dispatched.Some? ==>
              id in s.orders && s.orders[id].dispatched == t.orders[id].dispatched
  {
    if PlaceOrdersStep(s, sid, ids).reply.Ok? {
      Placed(s, sid, ids);
      hide PlaceOrdersStep;
    } else {
      hide InsertOrders, FreshIds, Insertable, InsertError;
    }
  }

  lemma PlaceWaited(h: Seen, s: State, sid: SessionId, ids: seq<OrderId>)
    requires Waited(h, s)
    ensures Waited(h, PlaceOrdersStep(s, sid, ids).state)
  {
    PlaceNoSweep(s, sid, ids);
    PlaceUnsent(s, sid, ids);
    hide PlaceOrdersStep, Waited;
    QuietWaited(h, s, PlaceOrdersStep(s, sid, ids).state);
  }

  lemma CommitWrites(s: State, sid: SessionId)
    ensures var t := CommitConfirmStep(s, sid).state;
            && NoNewSweep(s.sessions, t.sessions)
            && (forall id :: id in t.orders ==> id in s.orders && t.orders[id].dispatched == s.orders[id].dispatched)
            && s.ledger <= t.ledger
            && (forall i :: |s.ledger| <= i < |t.ledger| ==> t.ledger[i].status == Held)
  {
    hide PayAll;
    if sid in s.sessions && s.sessions[sid].Confirming? {
      var c := s.sessions[sid];
      hide *;
      CommitIs(s, sid);
      ClosedNoSweep(s, sid);
      PayAllWrites(Close(s, sid), c.ref, c.rows, c.lone);
      SameDispatch(s.orders, CommitConfirmStep(s, sid).state.orders, c.rows, s.now);
      OnlyHeld(s.orders, s.ledger, CommitConfirmStep(s, sid).state.ledger, c.rows, c.ref, c.lone);
    }
  }

  lemma ClosedNoSweep(s: State, sid: SessionId)
    ensures var b := Close(s, sid);
            && b == s.(sessions := b.sessions) && NoNewSweep(s.sessions, b.sessions)
  {
  }

  lemma SameDispatch(x: map<OrderId, Order>, y: map<OrderId, Order>, rows: seq<OrderId>, now: int)
    requires AllConfirmed(x, y, rows, now)
    ensures forall id :: id in y ==> id in x && y[id].dispatched == x[id].dispatched
  {
  }

  lemma OnlyHeld(orders: map<OrderId, Order>, before: seq<Entry>, after: seq<Entry>, rows: seq<OrderId>, ref: Ref,
                 lone: bool)
    requires AllCredited(orders, before, after, rows, ref, lone)
    ensures before <= after && forall i :: |before| <= i < |after| ==> after[i].status == Held
  {
    forall i | |before| <= i < |after| ensures after[i].status == Held {
      assert CreditAmong(orders, rows, after[i], ref, lone);
    }
  }

  lemma CommitWaited(h: Seen, s: State, sid: SessionId)
    requires Waited(h, s)
    ensures Waited(h, CommitConfirmStep(s, sid).state)
  {
    CommitWrites(s, sid);
    hide CommitConfirmStep, Waited;
    QuietWaited(h, s, CommitConfirmStep(s, sid).state);
  }

  lemma AbandonWaited(h: Seen, s: State)
    requires Waited(h, s)
    ensures Waited(h, s.(orders := AbandonAll(s.orders, s.now)))
  {
    hide Waited;
    QuietWaited(h, s, s.(orders := AbandonAll(s.orders, s.now)));
  }

  lemma BeginSweepWaited(h: Seen, s: State, sid: SessionId, rows: seq<OrderId>)
    requires Waited(h, s)
    ensures Waited(h, BeginSweepStep(s, sid, rows).state)
  {
    if BeginSweepStep(s, sid, rows).reply.Ok? {
      forall i | 0 <= i < |rows| ensures LongSent(h, rows[i], s.now) {
        assert Overdue(s.orders[rows[i]], s.now - ESCROW_WINDOW);
        assert (rows[i], s.orders[rows[i]].dispatched.value) in h.sent;
      }
      hide LongSent, Due, DueRows;
    }
  }

  lemma OtherWaited(h: Seen, s: State, a: Step)
    requires Waited(h, s)
    requires !a.VendorWrites? && !a.OnOrder? && !a.Sweep? && !a.PlaceOrders? && !a.CommitConfirm? && !a.MarkAbandoned?
    requires !a.BeginSweep?
    ensures Waited(h, Next(s, a).state)
  {
    if a.PayOut? || a.Deposit? {
      var e := MoneyAdds(s, a);
      hide Next, Waited;
      QuietWaited(h, s, Next(s, a).state);
    } else if a.Tick? {
      StillWaited(h, h, s, Next(s, a).state.now);
      hide Waited;
    } else {
      IsElsewhere(a);
      QuietRows(s, a);
      if a.BeginCheckout? || a.PriceLine? || a.BeginConfirm? { OpensNoSweep(s, a); } else { OtherSessions(s, a); }
      OtherClock(s, a);
      hide Next, Waited;
      QuietWaited(h, s, Next(s, a).state);
    }
  }

  lemma OtherClock(s: State, a: Step)
    requires !a.Tick?
    ensures Next(s, a).state.now == s.now
  {
    hide CreateOfferStep, BuyerMoveStep, VendorMoveStep, ExpireAll, BeginCheckoutStep, PriceLineStep,
         PlaceOrdersStep, BeginConfirmStep, CommitConfirmStep, AbandonAll, VendorWritesStep, ActOn,
         BeginSweepStep, SweepStep, WithdrawStep, DepositStep;
  }

  lemma NextBeginSweep(s: State, sid: SessionId, rows: seq<OrderId>)
    ensures Next(s, BeginSweep(sid, rows)) == BeginSweepStep(s, sid, rows)
  {
    hide BeginSweepStep;
  }

  lemma StepWaited(h: Seen, s: State, a: Step)
    requires Waited(h, s)
    ensures Waited(More(h, s, a), Next(s, a).state)
  {
    if a.VendorWrites? {
      hide *;
      WrittenWaited(h, s, a.order, a.store, a.status);
    } else if a.OnOrder? {
      hide *;
      OnOrderWaited(h, s, a.order, a.move);
    } else {
      assert More(h, s, a) == h;
      hide *;
      match a {
        case Sweep(sid) => NextSweep(s, sid); SweepWaited(h, s, sid);
        case PlaceOrders(sid, ids) => CheckoutStepIs(s, a); PlaceWaited(h, s, sid, ids);
        case CommitConfirm(sid) => CheckoutStepIs(s, a); CommitWaited(h, s, sid);
        case MarkAbandoned => CheckoutStepIs(s, a); AbandonWaited(h, s);
        case BeginSweep(sid, rows) => NextBeginSweep(s, sid, rows); BeginSweepWaited(h, s, sid, rows);
        case _ => OtherWaited(h, s, a);
      }
    }
  }

  lemma {:induction false} RunWaited(h: Seen, s: State, steps: seq<Step>)
    requires Waited(h, s)
    ensures Waited(Past(h, s, steps), Run(s, steps))
    decreases |steps|
  {
    hide Waited, Next, More;
    if steps != [] {
      StepWaited(h, s, steps[0]);
      RunWaited(More(h, s, steps[0]), Next(s, steps[0]).state, steps[1..]);
    }
  }

  // ---------- Whole runs ----------

  ghost predicate SentBy(h: Seen, id: OrderId, deadline: int) {
    exists d :: (id, d) in h.sent && d < deadline
  }

  lemma {:induction false} PastIs(h: Seen, s: State, steps: seq<Step>, id: OrderId, deadline: int)
    ensures id in Past(h, s, steps).answered ==> id in h.answered || Answered(s, steps, id)
    ensures SentBy(Past(h, s, steps), id, deadline) ==> SentBy(h, id, deadline) || SentBefore(s, steps, id, deadline)
    decreases |steps|
  {
    hide Next;
    if steps != [] {
      PastIs(More(h, s, steps[0]), Next(s, steps[0]).state, steps[1..], id, deadline);
      hide Sends, Answers;
    }
  }

  lemma Beginning(s: State)
    requires Unused(s)
    ensures Waited(Seen({}, {}), s)
    ensures forall id, deadline :: id !in Seen({}, {}).answered && !SentBy(Seen({}, {}), id, deadline)
  {
  }

  /** The buyer's week, over whole runs: a credit of an order that is paid out was answered for, by
      the buyer who confirmed the delivery or by an administrator who released it, or the order was
      sent more than seven days before. */
  lemma {:induction false} SweepWaits(s: State, steps: seq<Step>, i: int)
    requires Unused(s) && 0 <= i < |Run(s, steps).ledger|
    ensures var t := Run(s, steps);
            t.ledger[i].order.Some? && t.ledger[i].status == Completed ==>
              || Answered(s, steps, t.ledger[i].order.value)
              || SentBefore(s, steps, t.ledger[i].order.value, t.now - 7 * 24 * 3600)
  {
    hide *;
    var h, t := Seen({}, {}), Run(s, steps);
    Beginning(s);
    RunWaited(h, s, steps);
    if t.ledger[i].order.Some? && t.ledger[i].status == Completed {
      PastIs(h, s, steps, t.ledger[i].order.value, t.now - 7 * 24 * 3600);
      CreditWaited(Past(h, s, steps), t, i);
    }
  }

  lemma CreditWaited(h: Seen, t: State, i: int)
    requires Waited(h, t) && 0 <= i < |t.ledger| && t.ledger[i].order.Some? && t.ledger[i].status == Completed
    ensures t.ledger[i].order.value in h.answered || SentBy(h, t.ledger[i].order.value, t.now - 7 * 24 * 3600)
  {
    assert Due(h, t.ledger[i], t.now);
  }
}
