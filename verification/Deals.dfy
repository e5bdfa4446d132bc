/** Deals across checkout: what an order line that names a deal can rely on, in every
    interleaving of haggling, pricing, placing, paying and expiring. */
module Deals {
  import opened Base
  import opened Negotiation
  import opened Orders
  import opened Market
  import opened Tables

  // ---------- The invariant ----------

  ghost predicate OffersSound(offers: map<OfferId, Offer>) {
    forall f :: f in offers ==> Sound(offers[f])
  }

  /** A line naming a deal carries the deal's product and exactly its agreed price, and was
      placed by the buyer who made it. */
  ghost predicate DealLine(offers: map<OfferId, Offer>, email: Email, l: Line) {
    l.deal.Some? ==>
      && l.deal.value in offers
      && offers[l.deal.value].agreed == Some(l.price)
      && offers[l.deal.value].product == l.product
      && offers[l.deal.value].email == email
  }

  ghost predicate Honest(offers: map<OfferId, Offer>, email: Email, lines: seq<Line>) {
    && (forall i :: 0 <= i < |lines| ==> DealLine(offers, email, lines[i]))
    && (forall f :: Names(lines, f) && f in offers ==> DealUnits(lines, f) <= offers[f].quantity)
  }

  ghost predicate OrdersHonest(offers: map<OfferId, Offer>, orders: map<OrderId, Order>) {
    forall id :: id in orders ==> Honest(offers, orders[id].email, orders[id].lines)
  }

  /** A redeemed deal names the one paid order that redeemed it. */
  ghost predicate RedeemedByPayment(o: Offer, f: OfferId, orders: map<OrderId, Order>) {
    o.redeemedBy.Some? ==>
      && o.redeemedBy.value in orders
      && orders[o.redeemedBy.value].paid.Some?
      && Names(orders[o.redeemedBy.value].lines, f)
  }

  ghost predicate Redemptions(offers: map<OfferId, Offer>, orders: map<OrderId, Order>) {
    forall f :: f in offers ==> RedeemedByPayment(offers[f], f, orders)
  }

  /** What a checkout in flight has established about the lines it has priced so far. */
  ghost predicate PricedSoFar(offers: map<OfferId, Offer>, p: Session) {
    p.Pricing? ==>
      && p.k <= |p.req.baskets|
      && (forall j :: 0 <= j < p.k ==> Honest(offers, p.req.email, p.req.baskets[j].lines))
      && (p.k < |p.req.baskets| ==>
            && p.i <= |p.req.baskets[p.k].lines|
            && Honest(offers, p.req.email, p.req.baskets[p.k].lines[..p.i])
            && forall f :: (if f in p.units then p.units[f] else 0) == DealUnits(p.req.baskets[p.k].lines[..p.i], f))
  }

  ghost predicate SessionsHonest(offers: map<OfferId, Offer>, sessions: map<SessionId, Session>) {
    forall sid :: sid in sessions ==> PricedSoFar(offers, sessions[sid])
  }

  ghost predicate DealsOk(s: State) {
    && OffersSound(s.offers)
    && OrdersHonest(s.offers, s.orders)
    && Redemptions(s.offers, s.orders)
    && SessionsHonest(s.offers, s.sessions)
  }

  /** Every negotiation of `before` is still in `after`, as a later state of itself. */
  ghost predicate OffersFollow(before: map<OfferId, Offer>, after: map<OfferId, Offer>) {
    forall f :: f in before ==> f in after && Follows(before[f], after[f])
  }

  // ---------- Facts survive later states ----------

  lemma HonestStable(before: map<OfferId, Offer>, after: map<OfferId, Offer>, email: Email, lines: seq<Line>)
    requires Honest(before, email, lines) && OffersFollow(before, after)
    ensures Honest(after, email, lines)
  {
    forall i | 0 <= i < |lines| ensures DealLine(after, email, lines[i]) {
      assert DealLine(before, email, lines[i]);
      if lines[i].deal.Some? {
        var f := lines[i].deal.value;
        assert f in before && f in after && Follows(before[f], after[f]);
      }
    }
    forall f | Names(lines, f) && f in after ensures DealUnits(lines, f) <= after[f].quantity {
      var i :| 0 <= i < |lines| && lines[i].deal == Some(f);
      assert DealLine(before, email, lines[i]);
      assert Follows(before[f], after[f]);
    }
  }

  lemma OrdersHonestStable(before: map<OfferId, Offer>, after: map<OfferId, Offer>, orders: map<OrderId, Order>)
    requires OrdersHonest(before, orders) && OffersFollow(before, after)
    ensures OrdersHonest(after, orders)
  {
    hide Honest, OffersFollow;
    forall id | id in orders ensures Honest(after, orders[id].email, orders[id].lines) {
      HonestStable(before, after, orders[id].email, orders[id].lines);
    }
  }

  lemma PricedStable(before: map<OfferId, Offer>, after: map<OfferId, Offer>, p: Session)
    requires PricedSoFar(before, p) && OffersFollow(before, after)
    ensures PricedSoFar(after, p)
  {
    hide Honest, OffersFollow, DealUnits;
    if p.Pricing? {
      forall j | 0 <= j < p.k ensures Honest(after, p.req.email, p.req.baskets[j].lines) {
        HonestStable(before, after, p.req.email, p.req.baskets[j].lines);
      }
      if p.k < |p.req.baskets| {
        HonestStable(before, after, p.req.email, p.req.baskets[p.k].lines[..p.i]);
      }
    }
  }

  lemma SessionsHonestStable(before: map<OfferId, Offer>, after: map<OfferId, Offer>, sessions: map<SessionId, Session>)
    requires SessionsHonest(before, sessions) && OffersFollow(before, after)
    ensures SessionsHonest(after, sessions)
  {
    hide PricedSoFar, OffersFollow;
    forall sid | sid in sessions ensures PricedSoFar(after, sessions[sid]) {
      PricedStable(before, after, sessions[sid]);
    }
  }

  /** Later orders, same negotiations. */
  lemma OrdersLater(offers: map<OfferId, Offer>, before: map<OrderId, Order>, after: map<OrderId, Order>)
    requires OrdersHonest(offers, before) && Redemptions(offers, before)
    requires OrdersFollow(before, after) && after.Keys == before.Keys
    ensures OrdersHonest(offers, after) && Redemptions(offers, after)
  {
    hide Honest;
    forall id | id in after ensures Honest(offers, after[id].email, after[id].lines) {
      assert OrderFollows(before[id], after[id]);
    }
    forall f | f in offers ensures RedeemedByPayment(offers[f], f, after) {
      assert RedeemedByPayment(offers[f], f, before);
      if offers[f].redeemedBy.Some? {
        assert OrderFollows(before[offers[f].redeemedBy.value], after[offers[f].redeemedBy.value]);
      }
    }
  }

  // ---------- Haggling ----------

  /** One negotiation moved on. */
  lemma OneOffer(s: State, id: OfferId, o: Offer)
    requires DealsOk(s) && Sound(o)
    requires if id in s.offers then Follows(s.offers[id], o) && o.redeemedBy == s.offers[id].redeemedBy
             else o.redeemedBy.None?
    ensures OffersFollow(s.offers, s.offers[id := o])
    ensures DealsOk(s.(offers := s.offers[id := o]))
  {
    hide Sound, Honest, PricedSoFar;
    var after := s.offers[id := o];
    forall f | f in s.offers ensures f in after && Follows(s.offers[f], after[f]) {
    }
    OrdersHonestStable(s.offers, after, s.orders);
    SessionsHonestStable(s.offers, after, s.sessions);
  }

  lemma CreateDeals(s: State, id: OfferId, product: ProductId, email: Email, amount: int, quantity: int)
    requires DealsOk(s)
    ensures var t := CreateOfferStep(s, id, product, email, amount, quantity).state;
            DealsOk(t) && OffersFollow(s.offers, t.offers)
  {
    hide DealsOk, Sound;
    OffersFollowItself(s.offers);
    if CreateOfferStep(s, id, product, email, amount, quantity).reply.Ok? {
      var p := Screen(Lookup(s.products, product), amount).value;
      OpeningSound(p, product, email, amount, quantity, s.now);
      OneOffer(s, id, Opening(p, product, email, amount, quantity, s.now));
    }
  }

  lemma OffersFollowItself(offers: map<OfferId, Offer>)
    ensures OffersFollow(offers, offers)
  {
  }

  lemma BuyerDeals(s: State, id: OfferId, who: Option<Email>, answer: Answer)
    requires DealsOk(s)
    ensures var t := BuyerMoveStep(s, id, who, answer).state; DealsOk(t) && OffersFollow(s.offers, t.offers)
  {
    hide Sound;
    OffersFollowItself(s.offers);
    if BuyerMoveStep(s, id, who, answer).reply.Ok? {
      BuyerMoveSound(s.offers[id], s.now, answer, Lookup(s.products, s.offers[id].product));
      OneOffer(s, id, BuyerMove(s.offers[id], s.now, answer, Lookup(s.products, s.offers[id].product)).value);
    }
  }

  lemma VendorDeals(s: State, id: OfferId, store: StoreId, answer: Answer)
    requires DealsOk(s)
    ensures var t := VendorMoveStep(s, id, store, answer).state; DealsOk(t) && OffersFollow(s.offers, t.offers)
  {
    hide Sound;
    OffersFollowItself(s.offers);
    if VendorMoveStep(s, id, store, answer).reply.Ok? {
      VendorMoveSound(s.offers[id], s.now, store, answer);
      OneOffer(s, id, VendorMove(s.offers[id], s.now, store, answer).value);
    }
  }

  lemma ExpireDeals(s: State, only: Option<StoreId>)
    requires DealsOk(s)
    ensures DealsOk(s.(offers := ExpireAll(s.offers, only, s.now)))
    ensures OffersFollow(s.offers, ExpireAll(s.offers, only, s.now))
  {
    hide Sound, Honest, PricedSoFar;
    var after := ExpireAll(s.offers, only, s.now);
    forall f | f in s.offers
      ensures f in after && Follows(s.offers[f], after[f]) && Sound(after[f])
              && after[f].redeemedBy == s.offers[f].redeemedBy
    {
      ExpireSound(s.offers[f], s.now);
    }
    OrdersHonestStable(s.offers, after, s.orders);
    SessionsHonestStable(s.offers, after, s.sessions);
    forall f | f in after ensures RedeemedByPayment(after[f], f, s.orders) {
      assert RedeemedByPayment(s.offers[f], f, s.orders);
    }
  }

  // ---------- Pricing and placing ----------

  /** A checked line extends the priced part of a store's lines. */
  lemma CheckLineHonest(s: State, store: StoreId, email: Email, lines: seq<Line>, l: Line, units: map<OfferId, int>)
    requires Honest(s.offers, email, lines)
    requires forall f :: (if f in units then units[f] else 0) == DealUnits(lines, f)
    requires CheckLine(s, store, email, l, units).Ok?
    ensures Honest(s.offers, email, lines + [l])
    ensures var after := CheckLine(s, store, email, l, units).value;
            forall f :: (if f in after then after[f] else 0) == DealUnits(lines + [l], f)
  {
    forall f ensures DealUnits(lines + [l], f) == DealUnits(lines, f) + (if l.deal == Some(f) then l.quantity else 0) {
      DealUnitsAppend(lines, l, f);
    }
    forall f | Names(lines + [l], f) && f in s.offers ensures DealUnits(lines + [l], f) <= s.offers[f].quantity {
      if l.deal != Some(f) {
        var i :| 0 <= i < |lines + [l]| && (lines + [l])[i].deal == Some(f);
        assert lines[i].deal == Some(f);
        assert Names(lines, f);
      }
    }
  }

  lemma PriceLineDeals(s: State, sid: SessionId)
    requires SessionsHonest(s.offers, s.sessions)
    ensures SessionsHonest(s.offers, PriceLineStep(s, sid).state.sessions)
  {
    hide Honest, CheckLine, PricedSoFar;
    if sid in s.sessions && s.sessions[sid].Pricing? {
      var p := s.sessions[sid];
      assert PricedSoFar(s.offers, p);
      if p.k < |p.req.baskets| {
        if p.i >= |p.req.baskets[p.k].lines| {
          NextBasket(s.offers, p);
        } else {
          NextLine(s, p);
        }
      }
    }
  }

  lemma NextBasket(offers: map<OfferId, Offer>, p: Session)
    requires p.Pricing? && PricedSoFar(offers, p) && p.k < |p.req.baskets| && p.i >= |p.req.baskets[p.k].lines|
    ensures PricedSoFar(offers, Pricing(p.req, p.k + 1, 0, map[]))
  {
    hide Honest;
    var lines := p.req.baskets[p.k].lines;
    assert lines[..p.i] == lines;
    NothingPriced(offers, p.req.email);
    NoUnits(p.req, p.k + 1);
  }

  lemma NextLine(s: State, p: Session)
    requires p.Pricing? && PricedSoFar(s.offers, p) && p.k < |p.req.baskets| && p.i < |p.req.baskets[p.k].lines|
    ensures var b := p.req.baskets[p.k];
            var r := CheckLine(s, b.store, p.req.email, b.lines[p.i], p.units);
            r.Ok? ==> PricedSoFar(s.offers, Pricing(p.req, p.k, p.i + 1, r.value))
  {
    hide Honest;
    var b := p.req.baskets[p.k];
    if CheckLine(s, b.store, p.req.email, b.lines[p.i], p.units).Ok? {
      CheckLineHonest(s, b.store, p.req.email, b.lines[..p.i], b.lines[p.i], p.units);
      assert b.lines[..p.i] + [b.lines[p.i]] == b.lines[..p.i + 1];
    }
  }

  lemma NoUnits(req: Checkout, k: int)
    ensures 0 <= k < |req.baskets| ==> req.baskets[k].lines[..0] == []
    ensures forall f :: DealUnits([], f) == 0
  {
  }

  lemma NothingPriced(offers: map<OfferId, Offer>, email: Email)
    ensures Honest(offers, email, [])
  {
  }

  lemma PlaceDeals(s: State, sid: SessionId, ids: seq<OrderId>)
    requires DealsOk(s)
    ensures DealsOk(PlaceOrdersStep(s, sid, ids).state)
  {
    var out := PlaceOrdersStep(s, sid, ids);
    if out.reply.Ok? {
      Placed(s, sid, ids);
      var req := s.sessions[sid].req;
      var t := out.state;
      assert PricedSoFar(s.offers, s.sessions[sid]);
      hide PlaceOrdersStep, Honest, OffersSound, PricedSoFar;
      PricedBaskets(s.offers, s.sessions[sid], s.now);
      forall id | id in t.orders ensures Honest(t.offers, t.orders[id].email, t.orders[id].lines) {
        if id !in s.orders {
          var j :| 0 <= j < |ids| && ids[j] == id && t.orders[id] == NewOrder(req, j, s.now);
        }
      }
      hide NewOrder;
      forall f | f in t.offers ensures RedeemedByPayment(t.offers[f], f, t.orders) {
        assert RedeemedByPayment(s.offers[f], f, s.orders);
      }
    } else {
      RefusedPlacing(s, sid, ids);
      hide PlaceOrdersStep, OffersSound, OrdersHonest, Redemptions, PricedSoFar;
    }
  }

  lemma RefusedPlacing(s: State, sid: SessionId, ids: seq<OrderId>)
    requires PlaceOrdersStep(s, sid, ids).reply.Err?
    ensures PlaceOrdersStep(s, sid, ids).state == s || PlaceOrdersStep(s, sid, ids).state == Close(s, sid)
  {
    hide InsertOrders, FreshIds, Insertable;
  }

  lemma PricedBaskets(offers: map<OfferId, Offer>, p: Session, now: int)
    requires p.Pricing? && PricedSoFar(offers, p) && p.k >= |p.req.baskets|
    ensures forall j :: 0 <= j < |p.req.baskets| ==>
              Honest(offers, NewOrder(p.req, j, now).email, NewOrder(p.req, j, now).lines)
  {
    hide Honest;
  }

  // ---------- Payment ----------

  lemma PayOneDeals(s: State, ref: Ref, id: OrderId, lone: bool)
    requires OrdersShape(s.orders) && DealsOk(s)
    ensures DealsOk(PayOne(s, ref, id, lone))
    ensures OffersFollow(s.offers, PayOne(s, ref, id, lone).offers)
  {
    OffersFollowItself(s.offers);
    if AwaitsPayment(s.orders, id) {
      hide Sound, Follows, CreditRow;
      var o := s.orders[id];
      var t := PayOne(s, ref, id, lone);
      PaidFollows(s, id);
      assert t.orders == s.orders[id := o.(status := Confirmed, paid := Some(s.now))];
      RedeemsSound(s, id);
      hide PayOne, RedeemAll, OrdersFollow;
      OrdersLater(s.offers, s.orders, t.orders);
      OrdersHonestStable(s.offers, t.offers, t.orders);
      SessionsHonestStable(s.offers, t.offers, s.sessions);
      RedemptionsAfter(s, ref, id, lone);
    }
  }

  lemma RedeemsSound(s: State, id: OrderId)
    requires OffersSound(s.offers) && OrdersHonest(s.offers, s.orders) && id in s.orders
    ensures var after := RedeemAll(s.offers, s.orders[id].lines, id);
            OffersSound(after) && OffersFollow(s.offers, after)
  {
    hide Sound, Follows, Honest;
    var o := s.orders[id];
    assert Honest(s.offers, o.email, o.lines);
    var after := RedeemAll(s.offers, o.lines, id);
    forall f | f in s.offers ensures Sound(after[f]) && Follows(s.offers[f], after[f]) {
      RedeemNamed(s.offers, o.email, o.lines, id, f);
    }
  }

  lemma RedemptionsAfter(s: State, ref: Ref, id: OrderId, lone: bool)
    requires Redemptions(s.offers, s.orders) && AwaitsPayment(s.orders, id)
    ensures Redemptions(PayOne(s, ref, id, lone).offers, PayOne(s, ref, id, lone).orders)
  {
    hide CreditRow;
    var t := PayOne(s, ref, id, lone);
    forall f | f in t.offers ensures RedeemedByPayment(t.offers[f], f, t.orders) {
      assert RedeemedByPayment(s.offers[f], f, s.orders);
    }
  }

  /** Paying redeems only negotiations that reached an agreement. */
  lemma RedeemNamed(offers: map<OfferId, Offer>, email: Email, lines: seq<Line>, id: OrderId, f: OfferId)
    requires f in offers && Sound(offers[f]) && Honest(offers, email, lines)
    ensures var after := RedeemAll(offers, lines, id);
            f in after && Sound(after[f]) && Follows(offers[f], after[f])
  {
    if Names(lines, f) {
      var i :| 0 <= i < |lines| && lines[i].deal == Some(f);
      assert DealLine(offers, email, lines[i]);
      RedeemSound(offers[f], id);
    }
  }

  lemma OffersFollowTransitive(a: map<OfferId, Offer>, b: map<OfferId, Offer>, c: map<OfferId, Offer>)
    requires OffersFollow(a, b) && OffersFollow(b, c) && OffersSound(a) && OffersSound(b)
    ensures OffersFollow(a, c)
  {
    hide Bracket, Rising, Consented, Bounded;
    forall f | f in a ensures f in c && Follows(a[f], c[f]) {
      assert f in b && Sound(a[f]) && Sound(b[f]);
      FollowsTransitive(a[f], b[f], c[f]);
    }
  }

  lemma {:induction false} PayAllDeals(s: State, ref: Ref, rows: seq<OrderId>, lone: bool)
    requires RowsOk(s.orders, s.index, s.ledger) && DealsOk(s)
    requires forall i :: 0 <= i < |rows| ==> rows[i] in s.orders && s.orders[rows[i]].ref == ref
    ensures DealsOk(PayAll(s, ref, rows, lone))
    ensures OffersFollow(s.offers, PayAll(s, ref, rows, lone).offers)
    decreases |rows|
  {
    hide OffersSound, OrdersHonest, Redemptions, SessionsHonest, OffersFollow, Indexed, Credits;
    if rows == [] {
      OffersFollowItself(s.offers);
    } else {
      var next := PayOne(s, ref, rows[0], lone);
      PayOneDeals(s, ref, rows[0], lone);
      PayOneOk(s, ref, rows[0], lone);
      PayAllDeals(next, ref, rows[1..], lone);
      OffersFollowTransitive(s.offers, next.offers, PayAll(s, ref, rows, lone).offers);
    }
  }

  lemma CloseDeals(s: State, sid: SessionId)
    requires DealsOk(s)
    ensures DealsOk(Close(s, sid))
  {
    hide OffersSound, OrdersHonest, Redemptions, PricedSoFar;
  }

  lemma CommitDeals(s: State, sid: SessionId)
    requires TablesOk(s) && DealsOk(s)
    ensures var t := CommitConfirmStep(s, sid).state; DealsOk(t) && OffersFollow(s.offers, t.offers)
  {
    hide DealsOk, RowsOk, OffersFollow;
    OffersFollowItself(s.offers);
    if sid in s.sessions && s.sessions[sid].Confirming? {
      var c := s.sessions[sid];
      CloseDeals(s, sid);
      PayAllDeals(Close(s, sid), c.ref, c.rows, c.lone);
    }
  }

  // ---------- Every other step ----------

  /** A session that prices nothing claims nothing. */
  lemma AddSession(s: State, sid: SessionId, p: Session)
    requires DealsOk(s) && PricedSoFar(s.offers, p)
    ensures DealsOk(WithSession(s, sid, p))
  {
    hide OffersSound, OrdersHonest, Redemptions, PricedSoFar;
  }

  lemma OpenDeals(s: State, a: Step)
    requires DealsOk(s) && (a.BeginCheckout? || a.BeginConfirm? || a.BeginSweep? || a.PriceLine?)
    ensures DealsOk(Next(s, a).state) && Next(s, a).state.offers == s.offers
  {
    hide DealsOk, Honest, BeginCheckoutStep, BeginConfirmStep, BeginSweepStep, PriceLineStep;
    match a
    case BeginCheckout(sid, req) => CheckoutDeals(s, sid, req);
    case BeginConfirm(sid, ref, rows) =>
      AddSession(s, sid, Confirming(ref, rows, |rows| == 1));
      ConfirmSession(s, sid, ref, rows);
    case BeginSweep(sid, rows) =>
      AddSession(s, sid, Sweeping(rows, 0, false));
      SweepSession(s, sid, rows);
    case PriceLine(sid) => PriceDeals(s, sid);
  }

  lemma CheckoutDeals(s: State, sid: SessionId, req: Checkout)
    requires DealsOk(s)
    ensures DealsOk(BeginCheckoutStep(s, sid, req).state)
  {
    hide DealsOk, Honest, ValidRequest;
    NothingPriced(s.offers, req.email);
    NoUnits(req, 0);
    AddSession(s, sid, Pricing(req, 0, 0, map[]));
  }

  lemma ConfirmSession(s: State, sid: SessionId, ref: Ref, rows: seq<OrderId>)
    ensures var t := BeginConfirmStep(s, sid, ref, rows).state;
            t == s || t == WithSession(s, sid, Confirming(ref, rows, |rows| == 1))
  {
    hide SumTotals, AwaitsPayment;
  }

  lemma SweepSession(s: State, sid: SessionId, rows: seq<OrderId>)
    ensures var t := BeginSweepStep(s, sid, rows).state; t == s || t == WithSession(s, sid, Sweeping(rows, 0, false))
  {
    hide DueRows;
  }

  lemma PriceDeals(s: State, sid: SessionId)
    requires DealsOk(s)
    ensures DealsOk(PriceLineStep(s, sid).state) && PriceLineStep(s, sid).state.offers == s.offers
  {
    hide OffersSound, OrdersHonest, Redemptions, SessionsHonest;
    PriceLineDeals(s, sid);
  }

  /** Orders moved on, negotiations and prices in flight did not. */
  lemma LaterOrders(s: State, t: State)
    requires DealsOk(s) && t.offers == s.offers
    requires OrdersFollow(s.orders, t.orders) && t.orders.Keys == s.orders.Keys
    requires OnlySweepsMove(s.sessions, t.sessions)
    ensures DealsOk(t)
  {
    hide OffersSound, Honest;
    OrdersLater(s.offers, s.orders, t.orders);
  }

  lemma OrderStepDeals(s: State, a: Step)
    requires TablesOk(s) && DealsOk(s)
    requires a.VendorWrites? || a.OnOrder? || a.MarkAbandoned?
    ensures DealsOk(Next(s, a).state) && Next(s, a).state.offers == s.offers
  {
    StepOk(s, a);
    OrderFrame(s, a);
    hide DealsOk, TablesOk, Next;
    LaterOrders(s, Next(s, a).state);
  }

  lemma OrderFrame(s: State, a: Step)
    requires a.VendorWrites? || a.OnOrder? || a.MarkAbandoned?
    ensures var t := Next(s, a).state;
            t.offers == s.offers && t.orders.Keys == s.orders.Keys && t.sessions == s.sessions
  {
    hide VendorWritesStep, ActOn;
  }

  lemma SweepDeals(s: State, sid: SessionId)
    requires TablesOk(s) && DealsOk(s)
    ensures DealsOk(SweepStep(s, sid).state) && SweepStep(s, sid).state.offers == s.offers
  {
    hide DealsOk, TablesOk;
    NextSweep(s, sid);
    SweepFrame(s, sid);
    hide Next, SweepStep;
    StepOk(s, Sweep(sid));
    LaterOrders(s, SweepStep(s, sid).state);
  }

  /** Calls in flight are as they were, but for sweeps. */
  ghost predicate OnlySweepsMove(before: map<SessionId, Session>, after: map<SessionId, Session>) {
    forall sid :: sid in after ==> (sid in before && after[sid] == before[sid]) || after[sid].Sweeping?
  }

  lemma SweepFrame(s: State, sid: SessionId)
    ensures OnlySweepsMove(s.sessions, SweepStep(s, sid).state.sessions)
  {
    hide ActOn;
  }

  lemma MoneyDeals(s: State, a: Step)
    requires DealsOk(s) && (a.PayOut? || a.Deposit? || a.Tick? || a.SetProduct? || a.Charge?)
    ensures DealsOk(Next(s, a).state) && Next(s, a).state.offers == s.offers
  {
    hide OffersSound, OrdersHonest, Redemptions, SessionsHonest;
    var t := Next(s, a).state;
    assert t.offers == s.offers && t.orders == s.orders && t.sessions == s.sessions;
  }

  /** One step of any handler, in any interleaving, keeps every deal honest and every
      negotiation sound, and alters nothing that was agreed. */
  lemma StepDeals(s: State, a: Step)
    requires TablesOk(s) && DealsOk(s)
    ensures DealsOk(Next(s, a).state)
    ensures OffersFollow(s.offers, Next(s, a).state.offers)
  {
    hide DealsOk, TablesOk, CreateOfferStep, BuyerMoveStep, VendorMoveStep, ExpireAll, BeginCheckoutStep, PriceLineStep,
         PlaceOrdersStep, BeginConfirmStep, CommitConfirmStep, AbandonAll, VendorWritesStep, ActOn,
         BeginSweepStep, SweepStep, WithdrawStep, DepositStep;
    OffersFollowItself(s.offers);
    match a
    case CreateOffer(id, product, email, amount, quantity) => CreateDeals(s, id, product, email, amount, quantity);
    case BuyerMoves(id, who, answer) => BuyerDeals(s, id, who, answer);
    case VendorMoves(id, store, answer) => VendorDeals(s, id, store, answer);
    case ExpireOffers(only) => ExpireDeals(s, only);
    case PlaceOrders(sid, ids) => PlaceDeals(s, sid, ids);
    case CommitConfirm(sid) => CommitDeals(s, sid);
    case MarkAbandoned => OrderStepDeals(s, a);
    case VendorWrites(_, _, _) => OrderStepDeals(s, a);
    case OnOrder(_, _) => OrderStepDeals(s, a);
    case Sweep(sid) => SweepDeals(s, sid);
    case BeginCheckout(_, _) => OpenDeals(s, a);
    case PriceLine(_) => OpenDeals(s, a);
    case BeginConfirm(_, _, _) => OpenDeals(s, a);
    case BeginSweep(_, _) => OpenDeals(s, a);
    case _ => MoneyDeals(s, a);
  }

  lemma {:induction false} RunDeals(s: State, steps: seq<Step>)
    requires TablesOk(s) && DealsOk(s)
    ensures TablesOk(Run(s, steps)) && DealsOk(Run(s, steps))
    ensures OffersFollow(s.offers, Run(s, steps).offers)
    decreases |steps|
  {
    hide TablesOk, OrdersHonest, Redemptions, SessionsHonest, OffersSound, OffersFollow, Next;
    if steps == [] {
      OffersFollowItself(s.offers);
    } else {
      var next := Next(s, steps[0]).state;
      StepOk(s, steps[0]);
      StepDeals(s, steps[0]);
      RunDeals(next, steps[1..]);
      OffersFollowTransitive(s.offers, next.offers, Run(s, steps).offers);
    }
  }

  // ---------- The results ----------

  /** In every state of every run from an unused marketplace, a line that names a deal
      carries the deal's product at exactly the agreed price, and one order buys at most the
      deal's quantity at that price. */
  lemma DealIntegrity(s: State, steps: seq<Step>, id: OrderId, i: int)
    requires Unused(s) && id in Run(s, steps).orders
    requires 0 <= i < |Run(s, steps).orders[id].lines| && Run(s, steps).orders[id].lines[i].deal.Some?
    ensures var t := Run(s, steps);
            var o := t.orders[id];
            var l := o.lines[i];
            && l.deal.value in t.offers
            && t.offers[l.deal.value].product == l.product
            && t.offers[l.deal.value].agreed == Some(l.price)
            && t.offers[l.deal.value].email == o.email
            && DealUnits(o.lines, l.deal.value) <= t.offers[l.deal.value].quantity
  {
    hide *;
    UnusedDeals(s);
    RunDeals(s, steps);
    OrderHonest(Run(s, steps), id);
    HonestMeans(Run(s, steps).offers, Run(s, steps).orders[id].email, Run(s, steps).orders[id].lines, i);
  }

  lemma UnusedDeals(s: State)
    requires Unused(s)
    ensures TablesOk(s) && DealsOk(s)
  {
  }

  lemma OrderHonest(t: State, id: OrderId)
    requires DealsOk(t) && id in t.orders
    ensures Honest(t.offers, t.orders[id].email, t.orders[id].lines)
  {
    hide Honest;
  }

  lemma HonestMeans(offers: map<OfferId, Offer>, email: Email, lines: seq<Line>, i: int)
    requires Honest(offers, email, lines) && 0 <= i < |lines| && lines[i].deal.Some?
    ensures var l := lines[i];
            && l.deal.value in offers
            && offers[l.deal.value].product == l.product
            && offers[l.deal.value].agreed == Some(l.price)
            && offers[l.deal.value].email == email
            && DealUnits(lines, l.deal.value) <= offers[l.deal.value].quantity
  {
    assert DealLine(offers, email, lines[i]);
    assert Names(lines, lines[i].deal.value);
  }

  /** A redeemed deal was redeemed by one paid order, on a line at the agreed price; from then
      on neither the price nor the order that used it ever changes. */
  lemma RedeemedOnce(s: State, steps: seq<Step>, more: seq<Step>, f: OfferId)
    requires Unused(s)
    requires f in Run(s, steps).offers && Run(s, steps).offers[f].status.Redeemed?
    ensures var t := Run(s, steps);
            var d := t.offers[f];
            && d.redeemedBy.Some? && d.redeemedBy.value in t.orders
            && t.orders[d.redeemedBy.value].paid.Some?
            && exists i :: 0 <= i < |t.orders[d.redeemedBy.value].lines|
                           && t.orders[d.redeemedBy.value].lines[i].deal == Some(f)
                           && d.agreed == Some(t.orders[d.redeemedBy.value].lines[i].price)
    ensures var t := Run(s, steps);
            var u := Run(s, steps + more);
            f in u.offers && u.offers[f].redeemedBy == t.offers[f].redeemedBy
                && u.offers[f].agreed == t.offers[f].agreed
  {
    hide *;
    UnusedDeals(s);
    RunDeals(s, steps);
    RedeemedMeans(Run(s, steps), f);
    RunAppend(s, steps, more);
    RunDeals(Run(s, steps), more);
    StaysRedeemed(Run(s, steps).offers, Run(s, steps + more).offers, f);
  }

  lemma RedeemedMeans(t: State, f: OfferId)
    requires DealsOk(t) && f in t.offers && t.offers[f].status.Redeemed?
    ensures var d := t.offers[f];
            && d.redeemedBy.Some? && d.redeemedBy.value in t.orders && d.agreed.Some?
            && t.orders[d.redeemedBy.value].paid.Some?
            && exists i :: 0 <= i < |t.orders[d.redeemedBy.value].lines|
                           && t.orders[d.redeemedBy.value].lines[i].deal == Some(f)
                           && d.agreed == Some(t.orders[d.redeemedBy.value].lines[i].price)
  {
    hide Bracket, Rising, Consented, Bounded;
    var d := t.offers[f];
    assert Sound(d) && RedeemedByPayment(d, f, t.orders);
    var o := t.orders[d.redeemedBy.value];
    var i :| 0 <= i < |o.lines| && o.lines[i].deal == Some(f);
    assert Honest(t.offers, o.email, o.lines);
    assert DealLine(t.offers, o.email, o.lines[i]);
  }

  lemma StaysRedeemed(before: map<OfferId, Offer>, after: map<OfferId, Offer>, f: OfferId)
    requires OffersFollow(before, after) && f in before
    requires before[f].redeemedBy.Some? && before[f].agreed.Some?
    ensures f in after && after[f].redeemedBy == before[f].redeemedBy && after[f].agreed == before[f].agreed
  {
    assert Follows(before[f], after[f]);
  }

  /** The haggling rules, in every state the whole marketplace reaches. */
  lemma EveryOfferSound(s: State, steps: seq<Step>, f: OfferId)
    requires Unused(s) && f in Run(s, steps).offers
    ensures var o := Run(s, steps).offers[f];
            && o.list <= 2 * o.offer && o.offer < o.list
            && (o.counter.Some? ==> o.offer < o.counter.value < o.list)
            && (Open(o) ==> o.agreed.None?)
            && (o.agreed.Some? ==> o.list <= 2 * o.agreed.value && o.agreed.value < o.list
                                   && exists i :: Struck(o.log, i, o.agreed.value))
            && Increasing(Asked(o.log)) && |Asked(o.log)| == o.buyerOffers <= 3
            && |o.log| <= 9
  {
    RunDeals(s, steps);
    hide Run;
    SoundMeans(Run(s, steps).offers, f);
  }

  lemma SoundMeans(offers: map<OfferId, Offer>, f: OfferId)
    requires OffersSound(offers) && f in offers
    ensures var o := offers[f];
            && o.list <= 2 * o.offer && o.offer < o.list
            && (o.counter.Some? ==> o.offer < o.counter.value < o.list)
            && (Open(o) ==> o.agreed.None?)
            && (o.agreed.Some? ==> o.list <= 2 * o.agreed.value && o.agreed.value < o.list
                                   && exists i :: Struck(o.log, i, o.agreed.value))
            && Increasing(Asked(o.log)) && |Asked(o.log)| == o.buyerOffers <= 3
            && |o.log| <= 9
  {
    hide Struck, Increasing, Asked;
    assert Sound(offers[f]);
  }
}
