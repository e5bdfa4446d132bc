/** Short runs from an unused marketplace in which the code does not do what its comments say. */
module Witnesses {
  import opened Base
  import opened Negotiation
  import opened Ledger
  import opened Orders
  import opened Market
  import opened SweepRaces

  function Start(): State {
    State(0, map[], map[], map[], map[], [], map[], map[])
  }

  lemma StartUnused()
    ensures Unused(Start())
  {
  }

  lemma Then(steps: seq<Step>, a: Step)
    ensures Run(Start(), steps + [a]) == Next(Run(Start(), steps), a).state
  {
    assert (steps + [a])[..|steps|] == steps;
    RunLast(Start(), steps + [a]);
  }

  // ---------- One order, paid for ----------

  const SOLO_ID: OrderId := "00000001"

  function Cup(store: StoreId, price: int): Product {
    Product(store, price, true, true, None)
  }

  function SoloRequest(): Checkout {
    Checkout("buyer", "ref", [Basket(1, [Line(1, 1, 1000, None)])], 200, false)
  }

  function SoloPlacing(): seq<Step> {
    [SetProduct(1, Cup(1, 1000))] + [BeginCheckout(0, SoloRequest())] + [PriceLine(0)] + [PriceLine(0)]
    + [PlaceOrders(0, [SOLO_ID])]
  }

  function SoloBuying(): seq<Step> {
    SoloPlacing() + [Charge("ref", 1200)] + [BeginConfirm(1, "ref", [SOLO_ID])] + [CommitConfirm(1)]
  }

  function SoloPlaced(): State {
    Start().(products := map[1 := Cup(1, 1000)], orders := map[SOLO_ID := NewOrder(SoloRequest(), 0, 0)],
             index := map["ref" := [SOLO_ID]])
  }

  function SoloOrder(): Order {
    NewOrder(SoloRequest(), 0, 0).(status := Confirmed, paid := Some(0))
  }

  function SoloPaid(): State {
    SoloPlaced().(orders := map[SOLO_ID := SoloOrder()], charges := map["ref" := 1200],
                  ledger := [CreditRow(NewOrder(SoloRequest(), 0, 0), SOLO_ID, "ref", true)])
  }

  lemma SoloPriced(s: State)
    requires s == Start().(products := map[1 := Cup(1, 1000)],
                           sessions := map[0 := Pricing(SoloRequest(), 0, 0, map[])])
    ensures Next(Next(s, PriceLine(0)).state, PriceLine(0)).state
         == s.(sessions := map[0 := Pricing(SoloRequest(), 1, 0, map[])])
  {
    var line := SoloRequest().baskets[0].lines[0];
    assert CheckLine(s, 1, "buyer", line, map[]) == Ok(map[]);
    var mid := s.(sessions := map[0 := Pricing(SoloRequest(), 0, 1, map[])]);
    assert Next(s, PriceLine(0)).state.sessions == mid.sessions;
    assert Next(s, PriceLine(0)).state == mid;
    assert Next(mid, PriceLine(0)).state.sessions == map[0 := Pricing(SoloRequest(), 1, 0, map[])];
  }

  lemma SoloPlaces()
    ensures Run(Start(), SoloPlacing()) == SoloPlaced()
  {
    var req := SoloRequest();
    var s1 := Start().(products := map[1 := Cup(1, 1000)]);
    var s2 := s1.(sessions := map[0 := Pricing(req, 0, 0, map[])]);
    var s4 := s1.(sessions := map[0 := Pricing(req, 1, 0, map[])]);
    var a, b := [SetProduct(1, Cup(1, 1000))], [BeginCheckout(0, req)];
    Then([], SetProduct(1, Cup(1, 1000)));
    assert [] + a == a && Run(Start(), []) == Start();
    assert Start().products[1 := Cup(1, 1000)] == s1.products;
    assert Run(Start(), a) == s1;
    Then(a, BeginCheckout(0, req));
    assert s1.sessions[0 := Pricing(req, 0, 0, map[])] == s2.sessions;
    assert Run(Start(), a + b) == s2;
    Then(a + b, PriceLine(0));
    Then(a + b + [PriceLine(0)], PriceLine(0));
    SoloPriced(s2);
    Then(a + b + [PriceLine(0)] + [PriceLine(0)], PlaceOrders(0, [SOLO_ID]));
    SoloInserted(s4);
  }

  lemma SoloInserted(s: State)
    requires s == Start().(products := map[1 := Cup(1, 1000)],
                           sessions := map[0 := Pricing(SoloRequest(), 1, 0, map[])])
    ensures Next(s, PlaceOrders(0, [SOLO_ID])).state == SoloPlaced()
  {
    var req := SoloRequest();
    assert LinesTotal(req.baskets[0].lines[1..]) == 0;
    assert InsertOrders(s.orders, req, [SOLO_ID], 0, 0) == s.orders;
    assert InsertOrders(s.orders, req, [SOLO_ID], 1, 0) == SoloPlaced().orders;
    assert RowsOf(s.index, "ref") + [SOLO_ID] == [SOLO_ID];
    assert s.index["ref" := [SOLO_ID]] == SoloPlaced().index;
    assert s.sessions - {0} == map[];
  }

  lemma SoloPays()
    ensures Run(Start(), SoloBuying()) == SoloPaid()
  {
    SoloPlaces();
    var s := SoloPlaced();
    var steps := SoloPlacing();
    Then(steps, Charge("ref", 1200));
    Then(steps + [Charge("ref", 1200)], BeginConfirm(1, "ref", [SOLO_ID]));
    Then(steps + [Charge("ref", 1200)] + [BeginConfirm(1, "ref", [SOLO_ID])], CommitConfirm(1));
    hide Run, SoloPlacing;
    var c := s.(charges := map["ref" := 1200]);
    assert s.charges["ref" := 1200] == c.charges;
    SoloBegins(c);
    SoloCommits(c);
  }

  lemma SoloBegins(c: State)
    requires c == SoloPlaced().(charges := map["ref" := 1200])
    ensures Next(c, BeginConfirm(1, "ref", [SOLO_ID])).state
            == c.(sessions := map[1 := Confirming("ref", [SOLO_ID], true)])
  {
    var o := c.orders[SOLO_ID];
    assert LinesTotal(o.lines[1..]) == 0 && LinesTotal(o.lines) == 1000 && o.total == 1200;
    assert SumTotals(c.orders, [SOLO_ID][1..]) == 0;
    assert SumTotals(c.orders, [SOLO_ID]) == 1200;
    assert AwaitsPayment(c.orders, [SOLO_ID][0]);
    assert c.sessions[1 := Confirming("ref", [SOLO_ID], true)] == map[1 := Confirming("ref", [SOLO_ID], true)];
  }

  lemma SoloCommits(c: State)
    requires c == SoloPlaced().(charges := map["ref" := 1200])
    ensures Next(c.(sessions := map[1 := Confirming("ref", [SOLO_ID], true)]), CommitConfirm(1)).state == SoloPaid()
  {
    var s := c.(sessions := map[1 := Confirming("ref", [SOLO_ID], true)]);
    assert s.sessions - {1} == map[];
    var paid := PayOne(c, "ref", SOLO_ID, true);
    assert paid.orders == SoloPaid().orders;
    assert paid.offers == map[];
    assert paid == SoloPaid();
    assert [SOLO_ID][1..] == [];
    assert PayAll(c, "ref", [SOLO_ID], true) == PayAll(paid, "ref", [], true) == paid;
  }

  // ---------- What can happen to it next ----------

  /** The marketplace of one order: the order, its ledger row, the time and the calls in flight. */
  function Solo(now: int, o: Order, e: Entry, sessions: map<SessionId, Session>): State {
    SoloPaid().(now := now, orders := map[SOLO_ID := o], ledger := [e], sessions := sessions)
  }

  function SoloCredit(): Entry {
    CreditRow(NewOrder(SoloRequest(), 0, 0), SOLO_ID, "ref", true)
  }

  lemma SoloIs(now: int, o: Order, e: Entry, sessions: map<SessionId, Session>)
    ensures var s := Solo(now, o, e, sessions);
            && SOLO_ID in s.orders && s.orders[SOLO_ID] == o && s.ledger == [e]
            && "ref" in s.charges && s.charges["ref"] == 1200
  {
  }

  lemma SoloHeld(e: Entry)
    ensures HasHeld([e], SOLO_ID) <==> e.order == Some(SOLO_ID) && e.status.Held?
  {
    if e.order == Some(SOLO_ID) && e.status.Held? { assert [e][0] == e; }
  }

  lemma SoloActs(now: int, o: Order, e: Entry, sessions: map<SessionId, Session>, m: Move)
    requires e.order == Some(SOLO_ID)
    ensures var r := Act(o, m, now, e.status.Held?);
            ActOn(Solo(now, o, e, sessions), SOLO_ID, m)
            == Out(Solo(now, r.order, Shift(e, SOLO_ID, r.fx), sessions), r.reply)
  {
    hide Act;
    SoloHeld(e);
    var s := Solo(now, o, e, sessions);
    var r := Act(o, m, now, e.status.Held?);
    assert s.orders[SOLO_ID := r.order] == map[SOLO_ID := r.order];
    assert Apply([e], SOLO_ID, r.fx) == [Shift(e, SOLO_ID, r.fx)];
  }

  lemma SoloVendor(now: int, o: Order, e: Entry, sessions: map<SessionId, Session>, status: OrderStatus)
    requires e.order == Some(SOLO_ID)
    ensures var r := Act(o, VendorSets(1, status, ByVendor), now, e.status.Held?);
            Next(Solo(now, o, e, sessions), VendorWrites(SOLO_ID, 1, status)).state
            == Solo(now, r.order, Shift(e, SOLO_ID, r.fx), sessions)
  {
    hide Act;
    SoloActs(now, o, e, sessions, VendorSets(1, status, ByVendor));
    var s := Solo(now, o, e, sessions);
    assert FulfilmentOf(s.orders, SOLO_ID).ByVendor?;
  }

  lemma SoloSweeps(now: int, o: Order, e: Entry, between: bool)
    requires e.order == Some(SOLO_ID)
    ensures var m := if between then SweepRelease else SweepMark;
            var r := Act(o, m, now, e.status.Held?);
            SweepStep(Solo(now, o, e, map[9 := Sweeping([SOLO_ID], 0, between)]), 9).state
            == Solo(now, r.order, Shift(e, SOLO_ID, r.fx),
                    map[9 := Sweeping([SOLO_ID], if between then 1 else 0, !between)])
  {
    var m := if between then SweepRelease else SweepMark;
    var sessions := map[9 := Sweeping([SOLO_ID], 0, between)];
    SoloActs(now, o, e, sessions, m);
    hide Act, ActOn, Shift;
    var to := Sweeping([SOLO_ID], if between then 1 else 0, !between);
    assert sessions[9 := to] == map[9 := to];
  }

  /** Sent on its way at time 0, and read by a sweep on the eighth day. */
  function SoloSwept(): seq<Step> {
    SoloBuying() + [VendorWrites(SOLO_ID, 1, Shipped)] + [Tick(8 * DAY)] + [BeginSweep(9, [SOLO_ID])]
  }

  function SentOrder(): Order {
    SoloOrder().(status := Shipped, dispatched := Some(0))
  }

  lemma SoloSent()
    ensures Run(Start(), SoloBuying() + [VendorWrites(SOLO_ID, 1, Shipped)])
            == Solo(0, SentOrder(), SoloCredit(), map[])
  {
    SoloPays();
    assert SoloPaid() == Solo(0, SoloOrder(), SoloCredit(), map[]);
    SoloShips();
    hide *;
    Then(SoloBuying(), VendorWrites(SOLO_ID, 1, Shipped));
    SoloVendor(0, SoloOrder(), SoloCredit(), map[], Shipped);
  }

  lemma SoloShips()
    ensures Act(SoloOrder(), VendorSets(1, Shipped, ByVendor), 0, true) == Outcome(SentOrder(), Keep, Ok(()))
    ensures SoloCredit().order == Some(SOLO_ID) && SoloCredit().status.Held?
    ensures Shift(SoloCredit(), SOLO_ID, Keep) == SoloCredit()
  {
    hide LinesTotal;
  }

  lemma SoloIsSwept()
    ensures Run(Start(), SoloSwept())
         == Solo(8 * DAY, SentOrder(), SoloCredit(), map[9 := Sweeping([SOLO_ID], 0, false)])
  {
    SoloSent();
    var steps := SoloBuying() + [VendorWrites(SOLO_ID, 1, Shipped)];
    var s := Solo(0, SentOrder(), SoloCredit(), map[]);
    assert SoloSwept() == steps + [Tick(8 * DAY)] + [BeginSweep(9, [SOLO_ID])];
    SoloWaits();
    hide *;
    Then(steps, Tick(8 * DAY));
    Then(steps + [Tick(8 * DAY)], BeginSweep(9, [SOLO_ID]));
  }

  lemma SoloWaits()
    ensures var s := Solo(0, SentOrder(), SoloCredit(), map[]);
            Next(Next(s, Tick(8 * DAY)).state, BeginSweep(9, [SOLO_ID])).state
            == Solo(8 * DAY, SentOrder(), SoloCredit(), map[9 := Sweeping([SOLO_ID], 0, false)])
  {
    hide SoloCredit, SoloPaid;
    var s := Solo(8 * DAY, SentOrder(), SoloCredit(), map[]);
    assert DueRows(s.orders, [SOLO_ID], s.now - ESCROW_WINDOW);
    assert s.sessions[9 := Sweeping([SOLO_ID], 0, false)] == map[9 := Sweeping([SOLO_ID], 0, false)];
  }

  lemma NextOn(s: State, id: OrderId, m: Move)
    requires !m.VendorSets? && !m.SweepMark? && !m.SweepRelease?
    ensures Next(s, OnOrder(id, m)) == ActOn(s, id, m)
  {
    hide ActOn;
  }

  lemma SweepFx(o: Order, e: Entry, now: int)
    ensures Shift(e, SOLO_ID, Act(o, SweepMark, now, e.status.Held?).fx) == e
    ensures Act(o, SweepRelease, now, e.status.Held?).fx == Release
  {
  }

  lemma SoloSweptTwice(steps: seq<Step>, o: Order, e: Entry)
    requires e.order == Some(SOLO_ID)
    requires Run(Start(), steps) == Solo(8 * DAY, o, e, map[9 := Sweeping([SOLO_ID], 0, false)])
    ensures var marked := Act(o, SweepMark, 8 * DAY, e.status.Held?).order;
            var paid := Act(marked, SweepRelease, 8 * DAY, e.status.Held?);
            Run(Start(), steps + [Sweep(9)] + [Sweep(9)])
            == Solo(8 * DAY, paid.order, Shift(e, SOLO_ID, Release), map[9 := Sweeping([SOLO_ID], 1, false)])
  {
    hide *;
    var marked := Act(o, SweepMark, 8 * DAY, e.status.Held?).order;
    Then(steps, Sweep(9));
    Then(steps + [Sweep(9)], Sweep(9));
    NextSweep(Solo(8 * DAY, o, e, map[9 := Sweeping([SOLO_ID], 0, false)]), 9);
    NextSweep(Solo(8 * DAY, marked, e, map[9 := Sweeping([SOLO_ID], 0, true)]), 9);
    SweepFx(o, e, 8 * DAY);
    SweepFx(marked, e, 8 * DAY);
    SoloSweeps(8 * DAY, o, e, false);
    SoloSweeps(8 * DAY, marked, e, true);
  }

  // ---------- Races of the sweep ----------

  /** The vendor cancels after the sweep has read the order: the sweep pays the vendor for an
      order that is cancelled, was never delivered and never confirmed. */
  lemma SweepPaysCancelled()
    ensures var t := Run(Start(), SoloSwept() + [VendorWrites(SOLO_ID, 1, Cancelled)] + [Sweep(9)] + [Sweep(9)]);
            && SOLO_ID in t.orders && t.orders[SOLO_ID].status.Cancelled?
            && t.orders[SOLO_ID].delivered.None? && t.orders[SOLO_ID].confirmed.None?
            && t.orders[SOLO_ID].refunds == []
            && Total(PaidOn(SOLO_ID), t.ledger) == 1200
  {
    SoloIsSwept();
    var steps := SoloSwept();
    Then(steps, VendorWrites(SOLO_ID, 1, Cancelled));
    hide Run, SoloSwept;
    CreditIs();
    CancelledThenPaid();
    var gone := SentOrder().(status := Cancelled);
    var paid := Act(Act(gone, SweepMark, 8 * DAY, true).order, SweepRelease, 8 * DAY, true).order;
    var e := Shift(SoloCredit(), SOLO_ID, Release);
    hide *;
    SoloVendor(8 * DAY, SentOrder(), SoloCredit(), map[9 := Sweeping([SOLO_ID], 0, false)], Cancelled);
    SoloSweptTwice(steps + [VendorWrites(SOLO_ID, 1, Cancelled)], gone, SoloCredit());
    SoloIs(8 * DAY, paid, e, map[9 := Sweeping([SOLO_ID], 1, false)]);
    PaidAlone(e);
  }

  lemma CancelledThenPaid()
    ensures var gone := SentOrder().(status := Cancelled);
            && Act(SentOrder(), VendorSets(1, Cancelled, ByVendor), 8 * DAY, true) == Outcome(gone, Keep, Ok(()))
            && var paid := Act(Act(gone, SweepMark, 8 * DAY, true).order, SweepRelease, 8 * DAY, true).order;
               paid.status.Cancelled? && paid.delivered.None? && paid.confirmed.None? && paid.refunds == []
    ensures var e := Shift(SoloCredit(), SOLO_ID, Release);
            e.order == Some(SOLO_ID) && e.status.Completed? && e.amount == SoloCredit().amount
    ensures Shift(SoloCredit(), SOLO_ID, Keep) == SoloCredit()
  {
    hide LinesTotal;
  }

  /** The buyer reports the order missing after the sweep has read it: the vendor is paid with
      the dispute open. */
  lemma SweepPaysInDispute()
    ensures var t := Run(Start(), SoloSwept() + [OnOrder(SOLO_ID, ReportMissing("buyer"))] + [Sweep(9)] + [Sweep(9)]);
            && SOLO_ID in t.orders && t.orders[SOLO_ID].dispute.Reported?
            && Total(PaidOn(SOLO_ID), t.ledger) == 1200
  {
    SoloIsSwept();
    var steps := SoloSwept();
    Then(steps, OnOrder(SOLO_ID, ReportMissing("buyer")));
    hide Run, SoloSwept;
    CreditIs();
    ReportedThenPaid();
    CancelledThenPaid();
    var disputed := SentOrder().(dispute := Reported);
    var paid := Act(Act(disputed, SweepMark, 8 * DAY, true).order, SweepRelease, 8 * DAY, true).order;
    var e := Shift(SoloCredit(), SOLO_ID, Release);
    var s := Solo(8 * DAY, SentOrder(), SoloCredit(), map[9 := Sweeping([SOLO_ID], 0, false)]);
    hide *;
    NextOn(s, SOLO_ID, ReportMissing("buyer"));
    SoloActs(8 * DAY, SentOrder(), SoloCredit(), map[9 := Sweeping([SOLO_ID], 0, false)], ReportMissing("buyer"));
    SoloSweptTwice(steps + [OnOrder(SOLO_ID, ReportMissing("buyer"))], disputed, SoloCredit());
    SoloIs(8 * DAY, paid, e, map[9 := Sweeping([SOLO_ID], 1, false)]);
    PaidAlone(e);
  }

  lemma ReportedThenPaid()
    ensures Act(SentOrder(), ReportMissing("buyer"), 8 * DAY, true)
            == Outcome(SentOrder().(dispute := Reported), Keep, Ok(()))
    ensures var marked := Act(SentOrder().(dispute := Reported), SweepMark, 8 * DAY, true).order;
            Act(marked, SweepRelease, 8 * DAY, true).order.dispute.Reported?
  {
  }

  lemma CreditIs()
    ensures SoloCredit().amount == 1200 && SoloCredit().order == Some(SOLO_ID) && SoloCredit().status.Held?
  {
    var lines := [Line(1, 1, 1000, None)];
    assert LinesTotal(lines[1..]) == 0 && LinesTotal(lines) == 1000;
  }

  lemma PaidAlone(e: Entry)
    requires e.order == Some(SOLO_ID) && e.status.Completed?
    ensures Total(PaidOn(SOLO_ID), [e]) == e.amount
  {
    assert [e][1..] == [];
  }

  // ---------- A delivered order, reopened ----------

  function SoloReopening(): seq<Step> {
    SoloBuying() + [VendorWrites(SOLO_ID, 1, Shipped)] + [OnOrder(SOLO_ID, ConfirmDelivery("buyer"))]
    + [VendorWrites(SOLO_ID, 1, Confirmed)]
  }

  function ReopenedOrder(): Order {
    SentOrder().(status := Confirmed, delivered := Some(0), confirmed := Some(0), reasons := {BuyerConfirmed})
  }

  lemma DeliveredThenReopened()
    ensures var delivered := ReopenedOrder().(status := Delivered);
            && Act(SentOrder(), ConfirmDelivery("buyer"), 0, true) == Outcome(delivered, Release, Ok(()))
            && Act(delivered, VendorSets(1, Confirmed, ByVendor), 0, false) == Outcome(ReopenedOrder(), Keep, Ok(()))
  {
    assert SentOrder().reasons + {BuyerConfirmed} == {BuyerConfirmed};
  }

  lemma SoloReopened()
    ensures Run(Start(), SoloReopening()) == Solo(0, ReopenedOrder(), Shift(SoloCredit(), SOLO_ID, Release), map[])
  {
    SoloSent();
    CreditIs();
    DeliveredThenReopened();
    var steps, e := SoloBuying() + [VendorWrites(SOLO_ID, 1, Shipped)], Shift(SoloCredit(), SOLO_ID, Release);
    Then(steps, OnOrder(SOLO_ID, ConfirmDelivery("buyer")));
    Then(steps + [OnOrder(SOLO_ID, ConfirmDelivery("buyer"))], VendorWrites(SOLO_ID, 1, Confirmed));
    hide Run, SoloBuying, Act, ActOn, SentOrder, ReopenedOrder, Solo, SoloCredit, VendorWritesStep;
    SoloActs(0, SentOrder(), SoloCredit(), map[], ConfirmDelivery("buyer"));
    SoloVendor(0, ReopenedOrder().(status := Delivered), e, map[], Confirmed);
  }

  /** The buyer confirms, the vendor sets the order back to confirmed, and a no-show refund goes
      through: the vendor keeps 1200 and the buyer gets 1200 back, out of a charge of 1200. */
  lemma ReopenedAndRefunded()
    ensures var t := Run(Start(), SoloReopening() + [OnOrder(SOLO_ID, NoShowRefund(true))]);
            && SOLO_ID in t.orders && t.orders[SOLO_ID].status.Cancelled? && t.orders[SOLO_ID].refunds == [1200]
            && Total(PaidOn(SOLO_ID), t.ledger) == 1200
            && "ref" in t.charges && t.charges["ref"] == 1200
  {
    SoloReopened();
    CreditIs();
    CancelledThenPaid();
    RefundedInFull();
    var o, e := Act(ReopenedOrder(), NoShowRefund(true), 0, false).order, Shift(SoloCredit(), SOLO_ID, Release);
    hide *;
    Then(SoloReopening(), OnOrder(SOLO_ID, NoShowRefund(true)));
    NextOn(Solo(0, ReopenedOrder(), e, map[]), SOLO_ID, NoShowRefund(true));
    SoloActs(0, ReopenedOrder(), e, map[], NoShowRefund(true));
    SoloIs(0, o, e, map[]);
    PaidAlone(e);
  }

  lemma RefundedInFull()
    ensures var r := Act(ReopenedOrder(), NoShowRefund(true), 0, false);
            && r.order.status.Cancelled? && r.order.refunds == [1200] && r.fx == VoidHeld
    ensures var e := Shift(SoloCredit(), SOLO_ID, Release);
            Shift(e, SOLO_ID, VoidHeld) == e
  {
    var lines := [Line(1, 1, 1000, None)];
    assert LinesTotal(lines[1..]) == 0 && LinesTotal(lines) == 1000;
  }

  // ---------- The sweep and the unique index ----------

  /** Two days after an offer, the buyer tries again. Whether a sweep ran in between decides the
      answer. */
  lemma CreateMeetsStale()
    ensures var s := Run(Start(), [SetProduct(1, Cup(1, 1000))] + [CreateOffer(1, 1, "buyer", 600, 1)]
                                  + [Tick(OFFER_WINDOW + 1)]);
            var again := CreateOffer(2, 1, "buyer", 700, 1);
            && Next(s, again).reply == Err(Conflict)
            && Next(Next(s, ExpireOffers(None)).state, again).reply == Ok(())
  {
    var list, first, later := SetProduct(1, Cup(1, 1000)), CreateOffer(1, 1, "buyer", 600, 1), Tick(OFFER_WINDOW + 1);
    Then([], list);
    assert [] + [list] == [list] && Run(Start(), []) == Start();
    Then([list], first);
    Then([list] + [first], later);
    hide Run;
    var row := Opening(Cup(1, 1000), 1, "buyer", 600, 1, 0);
    var s1 := Start().(products := map[1 := Cup(1, 1000)]);
    assert Start().products[1 := Cup(1, 1000)] == s1.products;
    assert RecentOffers(s1.offers, 1, "buyer", 0) == {};
    var s2 := s1.(offers := map[1 := row]);
    assert s1.offers[1 := row] == s2.offers;
    assert Next(s1, first).state == s2;
    StaleAgain(s2.(now := OFFER_WINDOW + 1), row);
  }

  lemma StaleAgain(s: State, row: Offer)
    requires row == Opening(Cup(1, 1000), 1, "buyer", 600, 1, 0)
    requires s == Start().(now := OFFER_WINDOW + 1, products := map[1 := Cup(1, 1000)], offers := map[1 := row])
    ensures var again := CreateOffer(2, 1, "buyer", 700, 1);
            && Next(s, again).reply == Err(Conflict)
            && Next(Next(s, ExpireOffers(None)).state, again).reply == Ok(())
  {
    assert RecentOffers(s.offers, 1, "buyer", s.now) == {};
    assert Open(s.offers[1]) && SameHaggle(s.offers[1], 1, "buyer");
    assert OpenExists(s.offers, 1, "buyer");
    var t := Next(s, ExpireOffers(None)).state;
    assert t.offers == map[1 := ExpireRow(row, s.now)];
    assert RecentOffers(t.offers, 1, "buyer", t.now) == {};
    assert !OpenExists(t.offers, 1, "buyer");
  }

  // ---------- Two orders on one reference ----------

  /** A basket of two stores, or of one store listed twice. */
  function PairRequest(y: StoreId): Checkout {
    Checkout("buyer", "ref", [Basket(1, [Line(1, 1, 1000, None)])] + [Basket(y, [Line(2, 1, 500, None)])], 200, false)
  }

  function PairPricing(y: StoreId): seq<Step> {
    [SetProduct(1, Cup(1, 1000))] + [SetProduct(2, Cup(y, 500))] + [BeginCheckout(0, PairRequest(y))]
    + [PriceLine(0)] + [PriceLine(0)] + [PriceLine(0)] + [PriceLine(0)]
  }

  function PairBuying(y: StoreId, a: OrderId, b: OrderId): seq<Step> {
    PairPricing(y) + [PlaceOrders(0, [a, b])] + [Charge("ref", 1700)] + [BeginConfirm(1, "ref", [a, b])]
    + [CommitConfirm(1)]
  }

  function PairShop(y: StoreId): State {
    Start().(products := map[1 := Cup(1, 1000), 2 := Cup(y, 500)])
  }

  function PairPlaced(y: StoreId, a: OrderId, b: OrderId): State {
    PairShop(y).(orders := map[a := NewOrder(PairRequest(y), 0, 0), b := NewOrder(PairRequest(y), 1, 0)],
                 index := map["ref" := [a, b]])
  }

  function PairCredit(y: StoreId, id: OrderId, k: int): Entry
    requires 0 <= k < 2
  {
    CreditRow(NewOrder(PairRequest(y), k, 0), id, "ref", false)
  }

  function PairPaid(y: StoreId, a: OrderId, b: OrderId): State {
    PairPlaced(y, a, b).(
    charges := map["ref" := 1700],
    orders := map[a := NewOrder(PairRequest(y), 0, 0).(status := Confirmed, paid := Some(0)),
                  b := NewOrder(PairRequest(y), 1, 0).(status := Confirmed, paid := Some(0))],
    ledger := if a[..8] == b[..8] then [PairCredit(y, a, 0)] else [PairCredit(y, a, 0), PairCredit(y, b, 1)])
  }

  function PairAt(y: StoreId, k: nat, i: nat): State {
    PairShop(y).(sessions := map[0 := Pricing(PairRequest(y), k, i, map[])])
  }

  lemma PairLine(y: StoreId, k: nat)
    requires k < 2
    ensures Next(PairAt(y, k, 0), PriceLine(0)).state == PairAt(y, k, 1)
    ensures Next(PairAt(y, k, 1), PriceLine(0)).state == PairAt(y, k + 1, 0)
  {
    var s, b := PairAt(y, k, 0), PairRequest(y).baskets[k];
    assert CheckLine(s, b.store, "buyer", b.lines[0], map[]) == Ok(map[]);
    assert s.sessions[0 := Pricing(PairRequest(y), k, 1, map[])] == PairAt(y, k, 1).sessions;
    assert PairAt(y, k, 1).sessions[0 := Pricing(PairRequest(y), k + 1, 0, map[])] == PairAt(y, k + 1, 0).sessions;
  }

  lemma PairOpens(y: StoreId)
    ensures Run(Start(), [SetProduct(1, Cup(1, 1000))] + [SetProduct(2, Cup(y, 500))]
                + [BeginCheckout(0, PairRequest(y))])
         == PairAt(y, 0, 0)
  {
    var one, two, begin := SetProduct(1, Cup(1, 1000)), SetProduct(2, Cup(y, 500)), BeginCheckout(0, PairRequest(y));
    Then([], one);
    assert [] + [one] == [one] && Run(Start(), []) == Start();
    Then([one], two);
    Then([one] + [two], begin);
    hide Run;
    var s := PairShop(y);
    assert Start().products[1 := Cup(1, 1000)][2 := Cup(y, 500)] == s.products;
    assert s.sessions[0 := Pricing(PairRequest(y), 0, 0, map[])] == PairAt(y, 0, 0).sessions;
    assert Next(s, begin).state == PairAt(y, 0, 0);
  }

  lemma PairPriced(y: StoreId)
    ensures Run(Start(), PairPricing(y)) == PairAt(y, 2, 0)
  {
    var p := PriceLine(0);
    var opening := [SetProduct(1, Cup(1, 1000))] + [SetProduct(2, Cup(y, 500))] + [BeginCheckout(0, PairRequest(y))];
    PairOpens(y);
    hide Run, Next, PairAt;
    Then(opening, p);
    Then(opening + [p], p);
    Then(opening + [p] + [p], p);
    Then(opening + [p] + [p] + [p], p);
    PairLine(y, 0);
    PairLine(y, 1);
  }

  lemma PairTotals(y: StoreId)
    ensures NewOrder(PairRequest(y), 0, 0).total == 1200 && NewOrder(PairRequest(y), 1, 0).total == 500
    ensures LinesTotal(PairRequest(y).baskets[0].lines) == 1000 && LinesTotal(PairRequest(y).baskets[1].lines) == 500
  {
    assert LinesTotal([Line(1, 1, 1000, None)][1..]) == 0 && LinesTotal([Line(2, 1, 500, None)][1..]) == 0;
  }

  lemma PairInserted(y: StoreId, a: OrderId, b: OrderId)
    requires a != b
    ensures Next(PairAt(y, 2, 0), PlaceOrders(0, [a, b])).state == PairPlaced(y, a, b)
  {
    var s, req, ids := PairAt(y, 2, 0), PairRequest(y), [a, b];
    CheckoutStepIs(s, PlaceOrders(0, ids));
    PairTotals(y);
    PairRows(y, a, b);
    hide LinesTotal, InsertOrders, NewOrder, Next;
    assert RowsOf(s.index, "ref") + ids == ids;
    assert s.index["ref" := ids] == PairPlaced(y, a, b).index;
    assert s.sessions - {0} == map[];
    assert FreshIds(s.orders, ids) && Insertable(req);
  }

  lemma PairRows(y: StoreId, a: OrderId, b: OrderId)
    requires a != b
    ensures InsertOrders(map[], PairRequest(y), [a, b], 2, 0) == PairPlaced(y, a, b).orders
  {
    hide NewOrder;
    var req, ids := PairRequest(y), [a, b];
    assert InsertOrders(map[], req, ids, 0, 0) == map[];
    assert InsertOrders(map[], req, ids, 1, 0) == map[a := NewOrder(req, 0, 0)];
  }

  lemma PairBegins(y: StoreId, a: OrderId, b: OrderId)
    requires a != b
    ensures var c := PairPlaced(y, a, b).(charges := map["ref" := 1700]);
            Next(c, BeginConfirm(1, "ref", [a, b])).state == c.(sessions := map[1 := Confirming("ref", [a, b], false)])
  {
    PairTotals(y);
    hide LinesTotal, NewOrder;
    var c, ids := PairPlaced(y, a, b).(charges := map["ref" := 1700]), [a, b];
    NextBegins(c, 1, "ref", ids);
    hide Next;
    assert SumTotals(c.orders, ids[1..][1..]) == 0;
    assert SumTotals(c.orders, ids[1..]) == 500 && SumTotals(c.orders, ids) == 1700;
    PairUnpaid(y, a, b);
    assert AwaitsPayment(c.orders, ids[0]);
    assert c.sessions[1 := Confirming("ref", ids, false)] == map[1 := Confirming("ref", ids, false)];
  }

  lemma PairUnpaid(y: StoreId, a: OrderId, b: OrderId)
    requires a != b
    ensures AwaitsPayment(PairPlaced(y, a, b).orders, a) && AwaitsPayment(PairPlaced(y, a, b).orders, b)
  {
  }

  /** Two orders of one reference share a credit reference exactly when their ids share a prefix. */
  lemma SamePrefix(a: OrderId, b: OrderId)
    ensures CreditRef("ref", a) == CreditRef("ref", b) <==> a[..8] == b[..8]
  {
    var x, y := CreditRef("ref", a), CreditRef("ref", b);
    assert a[..8] == x[4..] && b[..8] == y[4..];
  }

  lemma PairCommits(y: StoreId, a: OrderId, b: OrderId)
    requires a != b
    ensures var c := PairPlaced(y, a, b).(charges := map["ref" := 1700]);
            Next(c.(sessions := map[1 := Confirming("ref", [a, b], false)]), CommitConfirm(1)).state
                == PairPaid(y, a, b)
  {
    var c := PairPlaced(y, a, b).(charges := map["ref" := 1700]);
    var s := c.(sessions := map[1 := Confirming("ref", [a, b], false)]);
    assert s.sessions - {1} == map[];
    assert Close(s, 1) == c;
    hide *;
    NextCommit(s, 1, "ref", [a, b], false);
    PairFirst(y, a, b);
    PairSecond(y, a, b);
    PayTwo(c, a, b);
  }

  lemma NextCommit(s: State, sid: SessionId, ref: Ref, rows: seq<OrderId>, lone: bool)
    requires sid in s.sessions && s.sessions[sid] == Confirming(ref, rows, lone)
    ensures Next(s, CommitConfirm(sid)).state == PayAll(Close(s, sid), ref, rows, lone)
  {
    hide PayAll, Close;
  }

  lemma PayTwo(c: State, a: OrderId, b: OrderId)
    ensures PayAll(c, "ref", [a, b], false) == PayOne(PayOne(c, "ref", a, false), "ref", b, false)
  {
    hide PayOne;
    var first := PayOne(c, "ref", a, false);
    var second := PayOne(first, "ref", b, false);
    assert [a, b][1..] == [b] && [b][1..] == [];
    assert PayAll(c, "ref", [a, b], false) == PayAll(first, "ref", [b], false) == PayAll(second, "ref", [], false)
           == second;
  }

  function PairHalf(y: StoreId, a: OrderId, b: OrderId): State {
    PairPlaced(y, a, b).(
    charges := map["ref" := 1700],
    orders := map[a := NewOrder(PairRequest(y), 0, 0).(status := Confirmed, paid := Some(0)),
                  b := NewOrder(PairRequest(y), 1, 0)],
    ledger := [PairCredit(y, a, 0)])
  }

  lemma PairFirst(y: StoreId, a: OrderId, b: OrderId)
    requires a != b
    ensures PayOne(PairPlaced(y, a, b).(charges := map["ref" := 1700]), "ref", a, false) == PairHalf(y, a, b)
  {
    var c := PairPlaced(y, a, b).(charges := map["ref" := 1700]);
    var t := PayOne(c, "ref", a, false);
    assert t.orders == PairHalf(y, a, b).orders;
    assert t.offers == map[];
  }

  lemma PairSecond(y: StoreId, a: OrderId, b: OrderId)
    requires a != b
    ensures PayOne(PairHalf(y, a, b), "ref", b, false) == PairPaid(y, a, b)
  {
    SamePrefix(a, b);
    hide CreditRef;
    var c := PairHalf(y, a, b);
    var t := PayOne(c, "ref", b, false);
    assert t.orders == PairPaid(y, a, b).orders;
    assert t.offers == map[];
    assert c.ledger[0].reference == CreditRef("ref", a);
    assert Taken(c.ledger, CreditRef("ref", b)) <==> a[..8] == b[..8];
  }

  lemma PairPays(y: StoreId, a: OrderId, b: OrderId)
    requires a != b
    ensures Run(Start(), PairBuying(y, a, b)) == PairPaid(y, a, b)
  {
    var steps := PairPricing(y);
    var place, charge, begin := PlaceOrders(0, [a, b]), Charge("ref", 1700), BeginConfirm(1, "ref", [a, b]);
    Then(steps, place);
    Then(steps + [place], charge);
    Then(steps + [place] + [charge], begin);
    Then(steps + [place] + [charge] + [begin], CommitConfirm(1));
    PairPriced(y);
    PairInserted(y, a, b);
    PairBegins(y, a, b);
    PairCommits(y, a, b);
    PairCharged(y, a, b);
    hide Run, Next, PairPricing, PairAt, PairPlaced, PairPaid;
  }

  lemma PairCharged(y: StoreId, a: OrderId, b: OrderId)
    ensures Next(PairPlaced(y, a, b), Charge("ref", 1700)).state == PairPlaced(y, a, b).(charges := map["ref" := 1700])
  {
    assert PairPlaced(y, a, b).charges["ref" := 1700] == map["ref" := 1700];
  }

  /** One store listed twice in a checkout: both orders say that the vendor delivers, and the
      delivery fee of 200 goes to no vendor. Distinct stores are needed for the two rules to
      agree. */
  lemma OneStoreTwice(a: OrderId, b: OrderId)
    requires a != b
    ensures var t := Run(Start(), PairBuying(1, a, b));
            && a in t.orders && b in t.orders && RowsOf(t.index, "ref") == [a, b]
            && t.orders[a].paid.Some? && t.orders[b].paid.Some? && t.orders[a].fee == 200
            && FulfilmentOf(t.orders, a).ByVendor? && FulfilmentOf(t.orders, b).ByVendor?
            && t.orders[a].total == 1200 && Total(HeldOn(a), t.ledger) == 1000
  {
    PairPays(1, a, b);
    hide Run;
    OneStorePaid(a, b);
  }

  lemma OneStorePaid(a: OrderId, b: OrderId)
    requires a != b
    ensures var t := PairPaid(1, a, b);
            && a in t.orders && b in t.orders && RowsOf(t.index, "ref") == [a, b]
            && t.orders[a].paid.Some? && t.orders[b].paid.Some? && t.orders[a].fee == 200
            && FulfilmentOf(t.orders, a).ByVendor? && FulfilmentOf(t.orders, b).ByVendor?
            && t.orders[a].total == 1200 && Total(HeldOn(a), t.ledger) == 1000
  {
    PairTotals(1);
    hide LinesTotal;
    var l := PairPaid(1, a, b).ledger;
    assert l[0] == PairCredit(1, a, 0) && l[0].amount == 1000;
    if a[..8] == b[..8] {
      assert l[1..] == [];
    } else {
      assert l[1..] == [PairCredit(1, b, 1)] && l[1..][1..] == [];
      assert Total(HeldOn(a), l[1..]) == 0;
    }
  }

  /** Two orders whose ids share their first eight characters, on one reference: both are paid
      for, and one vendor is never credited. */
  lemma SharedPrefix(a: OrderId, b: OrderId)
    requires a != b && a[..8] == b[..8]
    ensures var t := Run(Start(), PairBuying(2, a, b));
            && a in t.orders && b in t.orders && t.orders[a].paid.Some? && t.orders[b].paid.Some?
            && Total(RowsOn(a), t.ledger) == 1 && Total(RowsOn(b), t.ledger) == 0
  {
    PairPays(2, a, b);
    hide Run;
    var l := PairPaid(2, a, b).ledger;
    assert l[1..] == [] && l[0].order == Some(a);
  }

  // ---------- One deal, two orders ----------

  const DEAL_ID: OrderId := "00000001"
  const AGAIN_ID: OrderId := "00000002"

  /** A price of 600 agreed on the spot, for one unit of a product that lists at 1000. */
  function Bargain(): Product {
    Product(1, 1000, true, true, Some(500))
  }

  function BargainOffer(): Offer {
    Opening(Bargain(), 1, "buyer", 600, 1, 0)
  }

  function BargainRequest(ref: Ref): Checkout {
    Checkout("buyer", ref, [Basket(1, [Line(1, 1, 600, Some(1))])], 200, false)
  }

  lemma BargainTotals(ref: Ref)
    ensures LinesTotal(BargainRequest(ref).baskets[0].lines) == 600
    ensures NewOrder(BargainRequest(ref), 0, 0).total == 800
  {
    assert LinesTotal([Line(1, 1, 600, Some(1))][1..]) == 0;
  }

  lemma BargainPriced(s: State, sid: SessionId, ref: Ref)
    requires s.now == 0 && 1 in s.products && s.products[1] == Bargain()
    requires 1 in s.offers && s.offers[1] == BargainOffer()
    requires sid in s.sessions && s.sessions[sid] == Pricing(BargainRequest(ref), 0, 0, map[])
    ensures PriceLineStep(PriceLineStep(s, sid).state, sid).state
         == s.(sessions := s.sessions[sid := Pricing(BargainRequest(ref), 1, 0, map[])])
  {
    var req, line := BargainRequest(ref), BargainRequest(ref).baskets[0].lines[0];
    assert CheckLine(s, 1, "buyer", line, map[]) == Ok(map[1 := 1]);
    var mid := s.(sessions := s.sessions[sid := Pricing(req, 0, 1, map[1 := 1])]);
    assert PriceLineStep(s, sid).state == mid;
    hide CheckLine;
    assert mid.sessions[sid := Pricing(req, 1, 0, map[])] == s.sessions[sid := Pricing(req, 1, 0, map[])];
  }

  lemma BargainPlaced(s: State, sid: SessionId, ref: Ref, id: OrderId)
    requires s.now == 0 && sid in s.sessions && s.sessions[sid] == Pricing(BargainRequest(ref), 1, 0, map[])
    requires id !in s.orders && ref !in s.index
    ensures PlaceOrdersStep(s, sid, [id]).state
         == s.(orders := s.orders[id := NewOrder(BargainRequest(ref), 0, 0)], index := s.index[ref := [id]],
               sessions := s.sessions - {sid})
  {
    var req := BargainRequest(ref);
    BargainTotals(ref);
    hide LinesTotal;
    assert InsertOrders(s.orders, req, [id], 0, 0) == s.orders;
    assert InsertOrders(s.orders, req, [id], 1, 0) == s.orders[id := NewOrder(req, 0, 0)];
    assert RowsOf(s.index, ref) + [id] == [id];
    assert FreshIds(s.orders, [id]) && Insertable(req);
  }

  /** The marketplace after this order is paid for. */
  function BargainBought(s: State, ref: Ref, id: OrderId): State
    requires id in s.orders
  {
    s.(charges := s.charges[ref := 800],
       orders := s.orders[id := s.orders[id].(status := Confirmed, paid := Some(s.now))],
       ledger := Insert(s.ledger, CreditRow(s.orders[id], id, ref, true)),
       offers := RedeemAll(s.offers, s.orders[id].lines, id))
  }

  lemma BargainVerified(c: State, sid: SessionId, ref: Ref, id: OrderId)
    requires sid !in c.sessions && ref != "" && ref in c.charges && c.charges[ref] == 800
    requires id in c.orders && c.orders[id] == NewOrder(BargainRequest(ref), 0, 0) && RowsOf(c.index, ref) == [id]
    ensures BeginConfirmStep(c, sid, ref, [id]).state == WithSession(c, sid, Confirming(ref, [id], true))
  {
    BargainTotals(ref);
    hide LinesTotal;
    assert SumTotals(c.orders, [id][1..]) == 0 && SumTotals(c.orders, [id]) == 800;
    assert AwaitsPayment(c.orders, [id][0]);
  }

  lemma BargainCommitted(c: State, sid: SessionId, ref: Ref, id: OrderId)
    requires sid !in c.sessions && id in c.orders && c.orders[id] == NewOrder(BargainRequest(ref), 0, 0)
    requires ref in c.charges && c.charges[ref] == 800
    ensures CommitConfirmStep(WithSession(c, sid, Confirming(ref, [id], true)), sid).state == BargainBought(c, ref, id)
  {
    var s := WithSession(c, sid, Confirming(ref, [id], true));
    assert Close(s, sid) == c;
    assert AwaitsPayment(c.orders, id);
    var paid := PayOne(c, ref, id, true);
    assert c.charges[ref := 800] == c.charges;
    assert paid == BargainBought(c, ref, id);
    assert [id][1..] == [];
    assert PayAll(c, ref, [id], true) == PayAll(paid, ref, [], true) == paid;
  }

  lemma NextOpens(s: State, sid: SessionId, req: Checkout)
    requires sid !in s.sessions && ValidRequest(req)
    ensures Next(s, BeginCheckout(sid, req)).state == s.(sessions := s.sessions[sid := Pricing(req, 0, 0, map[])])
  {
    hide ValidRequest;
  }

  lemma NextPrices(s: State, sid: SessionId)
    ensures Next(s, PriceLine(sid)).state == PriceLineStep(s, sid).state
  {
    hide PriceLineStep;
  }

  lemma NextCharges(s: State, ref: Ref, amount: int)
    requires ref !in s.charges
    ensures Next(s, Charge(ref, amount)).state == s.(charges := s.charges[ref := amount])
  {
  }

  lemma NextBegins(s: State, sid: SessionId, ref: Ref, rows: seq<OrderId>)
    ensures Next(s, BeginConfirm(sid, ref, rows)).state == BeginConfirmStep(s, sid, ref, rows).state
  {
    hide BeginConfirmStep;
  }

  /** A checkout of the bargain opened and priced. */
  function BargainPricing(sid: SessionId, ref: Ref): seq<Step> {
    [BeginCheckout(sid, BargainRequest(ref))] + [PriceLine(sid)] + [PriceLine(sid)]
  }

  /** Placed, charged, verified and confirmed. */
  function Buying(sid: SessionId, call: SessionId, ref: Ref, id: OrderId): seq<Step> {
    [PlaceOrders(sid, [id])] + [Charge(ref, 800)] + [BeginConfirm(call, ref, [id])] + [CommitConfirm(call)]
  }

  lemma FourSteps(s: State, a: Step, b: Step, c: Step, d: Step)
    ensures Run(s, [a] + [b] + [c]) == Next(Next(Next(s, a).state, b).state, c).state
    ensures Run(s, [a] + [b] + [c] + [d]) == Next(Next(Next(Next(s, a).state, b).state, c).state, d).state
  {
    hide Next;
    var x := [a] + [b] + [c] + [d];
    assert x[1..] == [b, c, d] && x[1..][1..] == [c, d] && x[1..][1..][1..] == [d] && x[1..][1..][1..][1..] == [];
    var y := [a] + [b] + [c];
    assert y[1..] == [b, c] && y[1..][1..] == [c] && y[1..][1..][1..] == [];
    RunThree(s, a, b, c, []);
    RunThree(s, a, b, c, [d]);
    assert y + [] == y && x == y + [d];
    var t := Next(Next(Next(s, a).state, b).state, c).state;
    assert [d][1..] == [] && Run(Next(t, d).state, []) == Next(t, d).state;
  }

  lemma RunThree(s: State, a: Step, b: Step, c: Step, rest: seq<Step>)
    ensures Run(s, [a] + [b] + [c] + rest) == Run(Next(Next(Next(s, a).state, b).state, c).state, rest)
  {
    hide Next;
    var x := [a] + [b] + [c] + rest;
    assert x[0] == a && x[1..] == [b] + [c] + rest;
    assert x[1..][0] == b && x[1..][1..] == [c] + rest;
    assert x[1..][1..][0] == c && x[1..][1..][1..] == rest;
    var s1, s2 := Next(s, a).state, Next(Next(s, a).state, b).state;
    assert Run(s, x) == Run(s1, x[1..]);
    assert Run(s1, x[1..]) == Run(s2, x[1..][1..]);
    assert Run(s2, x[1..][1..]) == Run(Next(s2, c).state, rest);
  }

  lemma BargainOpens(s: State, sid: SessionId, ref: Ref)
    requires s.now == 0 && 1 in s.products && s.products[1] == Bargain()
    requires 1 in s.offers && s.offers[1] == BargainOffer()
    requires sid !in s.sessions && ref != ""
    ensures Run(s, BargainPricing(sid, ref))
            == s.(sessions := s.sessions[sid := Pricing(BargainRequest(ref), 1, 0, map[])])
  {
    var req := BargainRequest(ref);
    var begun := s.(sessions := s.sessions[sid := Pricing(req, 0, 0, map[])]);
    hide *;
    PricingIs(sid, ref);
    FourSteps(s, BeginCheckout(sid, req), PriceLine(sid), PriceLine(sid), PriceLine(sid));
    BargainValid(ref);
    NextOpens(s, sid, req);
    NextPrices(begun, sid);
    NextPrices(PriceLineStep(begun, sid).state, sid);
    BargainPriced(begun, sid, ref);
    Overwrites(s.sessions, sid, Pricing(req, 0, 0, map[]), Pricing(req, 1, 0, map[]));
  }

  lemma PricingIs(sid: SessionId, ref: Ref)
    ensures BargainPricing(sid, ref) == [BeginCheckout(sid, BargainRequest(ref))] + [PriceLine(sid)] + [PriceLine(sid)]
  {
  }

  lemma Overwrites(sessions: map<SessionId, Session>, sid: SessionId, p: Session, q: Session)
    ensures sessions[sid := p][sid := q] == sessions[sid := q]
  {
  }

  lemma BargainValid(ref: Ref)
    requires ref != ""
    ensures ValidRequest(BargainRequest(ref))
  {
  }

  lemma BargainBuys(s: State, sid: SessionId, call: SessionId, ref: Ref, id: OrderId)
    requires s.now == 0 && sid in s.sessions && s.sessions[sid] == Pricing(BargainRequest(ref), 1, 0, map[])
    requires id !in s.orders && ref !in s.index && ref !in s.charges && ref != "" && call !in s.sessions
    ensures var placed := s.(orders := s.orders[id := NewOrder(BargainRequest(ref), 0, 0)],
                             index := s.index[ref := [id]], sessions := s.sessions - {sid});
            Run(s, Buying(sid, call, ref, id)) == BargainBought(placed, ref, id)
  {
    var placed := s.(orders := s.orders[id := NewOrder(BargainRequest(ref), 0, 0)],
                     index := s.index[ref := [id]], sessions := s.sessions - {sid});
    var charged := placed.(charges := placed.charges[ref := 800]);
    FourSteps(s, PlaceOrders(sid, [id]), Charge(ref, 800), BeginConfirm(call, ref, [id]), CommitConfirm(call));
    CheckoutStepIs(s, PlaceOrders(sid, [id]));
    BargainPlaced(s, sid, ref, id);
    hide *;
    NextCharges(placed, ref, 800);
    NextBegins(charged, call, ref, [id]);
    OneRowThere(s.index, ref, id);
    BargainVerified(charged, call, ref, id);
    CheckoutStepIs(WithSession(charged, call, Confirming(ref, [id], true)), CommitConfirm(call));
    BargainCommitted(charged, call, ref, id);
    ChargedOnce(placed, ref, id);
    BuyingIs(sid, call, ref, id);
  }

  lemma BuyingIs(sid: SessionId, call: SessionId, ref: Ref, id: OrderId)
    ensures Buying(sid, call, ref, id)
         == [PlaceOrders(sid, [id])] + [Charge(ref, 800)] + [BeginConfirm(call, ref, [id])] + [CommitConfirm(call)]
  {
  }

  lemma OneRowThere(index: map<Ref, seq<OrderId>>, ref: Ref, id: OrderId)
    ensures RowsOf(index[ref := [id]], ref) == [id]
  {
  }

  lemma ChargedOnce(s: State, ref: Ref, id: OrderId)
    requires id in s.orders
    ensures BargainBought(s.(charges := s.charges[ref := 800]), ref, id) == BargainBought(s, ref, id)
  {
    assert s.charges[ref := 800][ref := 800] == s.charges[ref := 800];
  }

  function BargainStart(): State {
    Start().(products := map[1 := Bargain()], offers := map[1 := BargainOffer()])
  }

  lemma BargainStruck()
    ensures Run(Start(), [SetProduct(1, Bargain())] + [CreateOffer(1, 1, "buyer", 600, 1)]) == BargainStart()
  {
    var list, haggle := SetProduct(1, Bargain()), CreateOffer(1, 1, "buyer", 600, 1);
    Then([], list);
    assert [] + [list] == [list] && Run(Start(), []) == Start();
    Then([list], haggle);
    hide Run;
    var s := Start().(products := map[1 := Bargain()]);
    assert Start().products[1 := Bargain()] == s.products;
    assert RecentOffers(s.offers, 1, "buyer", 0) == {};
    assert s.offers[1 := BargainOffer()] == BargainStart().offers;
  }

  /** Both checkouts are priced while the deal is live; the second is placed when the first has been
      paid for and the deal is redeemed. */
  function TwiceBought(): seq<Step> {
    ([SetProduct(1, Bargain())] + [CreateOffer(1, 1, "buyer", 600, 1)])
    + BargainPricing(0, "a") + BargainPricing(1, "b") + Buying(0, 2, "a", DEAL_ID) + Buying(1, 3, "b", AGAIN_ID)
  }

  /** A deal on one unit, bought with twice: two paid orders, one unit each, both at the agreed
      price. Nothing unpaid named the deal when either was placed. */
  lemma DealUsedTwice()
    ensures var t := Run(Start(), TwiceBought());
            && 1 in t.offers && t.offers[1].quantity == 1
            && DEAL_ID in t.orders && t.orders[DEAL_ID].paid.Some?
            && AGAIN_ID in t.orders && t.orders[AGAIN_ID].paid.Some?
            && t.orders[DEAL_ID].lines == t.orders[AGAIN_ID].lines == [Line(1, 1, 600, Some(1))]
  {
    var head := [SetProduct(1, Bargain())] + [CreateOffer(1, 1, "buyer", 600, 1)];
    BargainStruck();
    var s0 := BargainStart();
    RunAppend(Start(), head, BargainPricing(0, "a"));
    RunAppend(Start(), head + BargainPricing(0, "a"), BargainPricing(1, "b"));
    RunAppend(Start(), head + BargainPricing(0, "a") + BargainPricing(1, "b"), Buying(0, 2, "a", DEAL_ID));
    RunAppend(Start(), head + BargainPricing(0, "a") + BargainPricing(1, "b") + Buying(0, 2, "a", DEAL_ID),
              Buying(1, 3, "b", AGAIN_ID));
    hide Run, BargainPricing, Buying;
    BargainOpens(s0, 0, "a");
    var s1 := s0.(sessions := s0.sessions[0 := Pricing(BargainRequest("a"), 1, 0, map[])]);
    BargainOpens(s1, 1, "b");
    var s2 := s1.(sessions := s1.sessions[1 := Pricing(BargainRequest("b"), 1, 0, map[])]);
    TwiceFrom(s2);
  }

  lemma TwiceFrom(s: State)
    requires s.now == 0 && s.orders == map[] && s.index == map[] && s.charges == map[]
    requires 1 in s.offers && s.offers[1].quantity == 1
    requires s.sessions
             == map[0 := Pricing(BargainRequest("a"), 1, 0, map[])][1 := Pricing(BargainRequest("b"), 1, 0, map[])]
    ensures var t := Run(Run(s, Buying(0, 2, "a", DEAL_ID)), Buying(1, 3, "b", AGAIN_ID));
            && 1 in t.offers && t.offers[1].quantity == 1
            && DEAL_ID in t.orders && t.orders[DEAL_ID].paid.Some?
            && AGAIN_ID in t.orders && t.orders[AGAIN_ID].paid.Some?
            && t.orders[DEAL_ID].lines == t.orders[AGAIN_ID].lines == [Line(1, 1, 600, Some(1))]
  {
    hide Run, Buying, Insert, CreditRow;
    BargainBuys(s, 0, 2, "a", DEAL_ID);
    var t := Run(s, Buying(0, 2, "a", DEAL_ID));
    assert DEAL_ID != AGAIN_ID by { assert DEAL_ID[7] != AGAIN_ID[7]; }
    BargainBuys(t, 1, 3, "b", AGAIN_ID);
  }
}
