/** Lazy and swept expiry agree: when the sweep runs changes no answer anyone is given. */
module Expiry {
  import opened Base
  import opened Negotiation
  import opened Ledger
  import opened Orders
  import opened Market
  import opened Tables
  import opened Deals

  // ---------- Two runs side by side ----------

  /** The conversation without the lines the sweep writes. */
  function Spoken(log: seq<Event>): seq<Event> {
    if log == [] then []
    else Spoken(log[..|log| - 1]) + (if log[|log| - 1].deed.Expires? then [] else [log[|log| - 1]])
  }

  /** `y` is `x`, or `x` as the sweep would leave it. */
  ghost predicate Swept(x: Offer, y: Offer, now: int) {
    && Spoken(x.log) == Spoken(y.log)
    && (y == x.(log := y.log) || (Lapsed(x, now) && y == x.(status := Expired, log := y.log)))
  }

  ghost predicate OffersSwept(x: map<OfferId, Offer>, y: map<OfferId, Offer>, now: int) {
    x.Keys == y.Keys && forall f :: f in x ==> Swept(x[f], y[f], now)
  }

  ghost predicate Alike(a: State, b: State) {
    b == a.(offers := b.offers) && OffersSwept(a.offers, b.offers, a.now)
  }

  lemma SpokenAppend(log: seq<Event>, e: Event)
    ensures Spoken(log + [e]) == Spoken(log) + (if e.deed.Expires? then [] else [e])
  {
    assert (log + [e])[..|log|] == log;
  }

  /** Readers are shown the same status, whichever run they look at. */
  lemma ShownAlike(x: Offer, y: Offer, now: int)
    requires Swept(x, y, now)
    ensures Shown(x, now) == Shown(y, now)
  {
  }

  lemma SweptLater(x: Offer, y: Offer, now: int, later: int)
    requires Swept(x, y, now) && now <= later
    ensures Swept(x, y, later)
  {
  }

  // ---------- One negotiation ----------

  lemma SameLogged(x: Offer, y: Offer, e: Event)
    requires Spoken(x.log) == Spoken(y.log)
    ensures Spoken(Logged(x, e).log) == Spoken(Logged(y, e).log)
  {
    SpokenAppend(x.log, e);
    SpokenAppend(y.log, e);
  }

  /** Moves do not read the conversation; they add the same lines to it. */
  ghost predicate SameMove(rx: Result<Offer>, ry: Result<Offer>) {
    && rx.Ok? == ry.Ok? && (rx.Err? ==> rx == ry)
    && (rx.Ok? ==> ry.value == rx.value.(log := ry.value.log) && Spoken(rx.value.log) == Spoken(ry.value.log))
  }

  lemma BuyerCounterLog(x: Offer, y: Offer, now: int, answer: Answer, product: Option<Product>)
    requires y == x.(log := y.log) && Spoken(x.log) == Spoken(y.log) && answer.Counter?
    ensures SameMove(BuyerMove(x, now, answer, product), BuyerMove(y, now, answer, product))
  {
    hide Spoken;
    if BuyerMove(x, now, answer, product).Ok? {
      var e := Event(Buyer, Offers, Some(answer.amount), None);
      var accept := Event(System, Accepts, Some(answer.amount), product.value.floor);
      SpokenAppend(x.log, e);
      SpokenAppend(y.log, e);
      SpokenAppend(x.log + [e], accept);
      SpokenAppend(y.log + [e], accept);
    }
  }

  lemma BuyerMoveLog(x: Offer, y: Offer, now: int, answer: Answer, product: Option<Product>)
    requires y == x.(log := y.log) && Spoken(x.log) == Spoken(y.log)
    ensures SameMove(BuyerMove(x, now, answer, product), BuyerMove(y, now, answer, product))
  {
    hide Spoken;
    if answer.Counter? {
      BuyerCounterLog(x, y, now, answer, product);
    } else if BuyerMove(x, now, answer, product).Ok? {
      SameLogged(x, y, BuyerMove(x, now, answer, product).value.log[|x.log|]);
    }
  }

  lemma BuyerMoveSwept(x: Offer, y: Offer, now: int, answer: Answer, product: Option<Product>)
    requires Swept(x, y, now)
    ensures var rx := BuyerMove(x, now, answer, product);
            var ry := BuyerMove(y, now, answer, product);
            && rx.Ok? == ry.Ok? && (rx.Err? ==> rx == ry)
            && (rx.Ok? ==> Swept(rx.value, ry.value, now))
  {
    if y == x.(log := y.log) { BuyerMoveLog(x, y, now, answer, product); }
  }

  lemma VendorMoveLog(x: Offer, y: Offer, now: int, store: StoreId, answer: Answer)
    requires y == x.(log := y.log) && Spoken(x.log) == Spoken(y.log)
    ensures SameMove(VendorMove(x, now, store, answer), VendorMove(y, now, store, answer))
  {
    hide Spoken;
    var rx := VendorMove(x, now, store, answer);
    if rx.Ok? { SameLogged(x, y, rx.value.log[|x.log|]); }
  }

  lemma VendorMoveSwept(x: Offer, y: Offer, now: int, store: StoreId, answer: Answer)
    requires Swept(x, y, now)
    ensures var rx := VendorMove(x, now, store, answer);
            var ry := VendorMove(y, now, store, answer);
            && rx.Ok? == ry.Ok? && (rx.Err? ==> rx == ry)
            && (rx.Ok? ==> Swept(rx.value, ry.value, now))
  {
    if y == x.(log := y.log) {
      VendorMoveLog(x, y, now, store, answer);
      hide VendorMove;
    }
    hide Spoken;
  }

  lemma ExpireSwept(x: Offer, y: Offer, now: int)
    requires Swept(x, y, now)
    ensures Swept(x, ExpireRow(y, now), now)
  {
    SpokenAppend(y.log, Event(System, Expires, None, None));
  }

  /** A redemption cannot tell a lapsed deal from an expired one. It could tell a lapsed
      offer from an expired one, but no order line names an offer that was never agreed. */
  lemma RedeemSwept(x: Offer, y: Offer, now: int, order: OrderId)
    requires Swept(x, y, now) && Turns(x) && x.agreed.Some?
    ensures Swept(RedeemRow(x, order), RedeemRow(y, order), now)
  {
    SameLogged(x, y, Event(System, Redeems, x.agreed, None));
  }

  // ---------- One step ----------

  lemma BuyerAlike(a: State, b: State, id: OfferId, who: Option<Email>, answer: Answer)
    requires Alike(a, b)
    ensures Alike(BuyerMoveStep(a, id, who, answer).state, BuyerMoveStep(b, id, who, answer).state)
    ensures BuyerMoveStep(a, id, who, answer).reply == BuyerMoveStep(b, id, who, answer).reply
  {
    hide Swept, BuyerMove;
    if id in a.offers {
      assert Swept(a.offers[id], b.offers[id], a.now);
      SweptIdentity(a.offers[id], b.offers[id], a.now);
      BuyerMoveSwept(a.offers[id], b.offers[id], a.now, answer, Lookup(a.products, a.offers[id].product));
    }
  }

  lemma SweptIdentity(x: Offer, y: Offer, now: int)
    requires Swept(x, y, now)
    ensures x.email == y.email && x.product == y.product && x.store == y.store && x.created == y.created
  {
  }

  lemma VendorAlike(a: State, b: State, id: OfferId, store: StoreId, answer: Answer)
    requires Alike(a, b)
    ensures Alike(VendorMoveStep(a, id, store, answer).state, VendorMoveStep(b, id, store, answer).state)
    ensures VendorMoveStep(a, id, store, answer).reply == VendorMoveStep(b, id, store, answer).reply
  {
    hide Swept, VendorMove;
    if id in a.offers {
      VendorMoveSwept(a.offers[id], b.offers[id], a.now, store, answer);
    }
  }

  /** An open row of this buyer on this product whose window has passed unswept. */
  ghost predicate Stale(offers: map<OfferId, Offer>, product: ProductId, email: Email, now: int) {
    exists f :: f in offers && Open(offers[f]) && Lapsed(offers[f], now) && SameHaggle(offers[f], product, email)
  }

  /** The rest of CreateOffer's checks pass and the new row would be an open one. */
  ghost predicate ReachesIndex(s: State, id: OfferId, product: ProductId, email: Email, amount: int, quantity: int) {
    && id !in s.offers && 1 <= amount && 0 <= quantity <= 10
    && Screen(Lookup(s.products, product), amount).Ok?
    && |RecentOffers(s.offers, product, email, s.now)| < DAILY_OFFERS
    && !ClearsFloor(Screen(Lookup(s.products, product), amount).value, amount)
  }

  /** A live open negotiation of this buyer on this product. */
  ghost predicate Live(offers: map<OfferId, Offer>, product: ProductId, email: Email, now: int) {
    exists f :: f in offers && Open(offers[f]) && !Lapsed(offers[f], now) && SameHaggle(offers[f], product, email)
  }

  /** CreateOffer's checks lead to the unique index, where only lapsed rows stand in the way. */
  ghost predicate BlockedByStale(s: State, id: OfferId, product: ProductId, email: Email, amount: int, quantity: int) {
    && ReachesIndex(s, id, product, email, amount, quantity)
    && Stale(s.offers, product, email, s.now) && !Live(s.offers, product, email, s.now)
  }

  lemma OpenExistsAlike(a: State, b: State, product: ProductId, email: Email)
    requires Alike(a, b) && (Stale(a.offers, product, email, a.now) ==> Live(a.offers, product, email, a.now))
    ensures OpenExists(a.offers, product, email) == OpenExists(b.offers, product, email)
  {
    if OpenExists(a.offers, product, email) {
      assert Live(a.offers, product, email, a.now);
      var f :| f in a.offers && Open(a.offers[f]) && !Lapsed(a.offers[f], a.now)
          && SameHaggle(a.offers[f], product, email);
      assert Swept(a.offers[f], b.offers[f], a.now);
      assert f in b.offers && Open(b.offers[f]);
    }
    if OpenExists(b.offers, product, email) {
      var f :| f in b.offers && Open(b.offers[f]) && SameHaggle(b.offers[f], product, email);
      assert Swept(a.offers[f], b.offers[f], a.now);
      assert f in a.offers && Open(a.offers[f]);
    }
  }

  lemma RecentAlike(a: State, b: State, product: ProductId, email: Email)
    requires Alike(a, b)
    ensures RecentOffers(a.offers, product, email, a.now) == RecentOffers(b.offers, product, email, a.now)
  {
    hide Swept;
    forall f | f in a.offers ensures SameHaggle(a.offers[f], product, email) == SameHaggle(b.offers[f], product, email)
                                     && a.offers[f].created == b.offers[f].created {
      SweptIdentity(a.offers[f], b.offers[f], a.now);
    }
  }

  lemma CreateAlike(a: State, b: State, id: OfferId, product: ProductId, email: Email, amount: int, quantity: int)
    requires Alike(a, b) && !BlockedByStale(a, id, product, email, amount, quantity)
    ensures Alike(CreateOfferStep(a, id, product, email, amount, quantity).state,
                  CreateOfferStep(b, id, product, email, amount, quantity).state)
    ensures CreateOfferStep(a, id, product, email, amount, quantity).reply
         == CreateOfferStep(b, id, product, email, amount, quantity).reply
  {
    CreateSame(a, b, id, product, email, amount, quantity);
    hide CreateOfferStep, BlockedByStale, Spoken;
    var x, y := CreateOfferStep(a, id, product, email, amount, quantity),
        CreateOfferStep(b, id, product, email, amount, quantity);
    if x.state != a {
      assert Swept(x.state.offers[id], y.state.offers[id], a.now);
    }
  }

  /** CreateOffer answers alike in both, and adds the same row to both or nothing to either. */
  lemma CreateSame(a: State, b: State, id: OfferId, product: ProductId, email: Email, amount: int, quantity: int)
    requires Alike(a, b) && !BlockedByStale(a, id, product, email, amount, quantity)
    ensures var x := CreateOfferStep(a, id, product, email, amount, quantity);
            var y := CreateOfferStep(b, id, product, email, amount, quantity);
            && x.reply == y.reply
            && ((x.state == a && y.state == b)
                || (id !in a.offers && id !in b.offers && id in x.state.offers
                    && x.state == a.(offers := a.offers[id := x.state.offers[id]])
                    && y.state == b.(offers := b.offers[id := x.state.offers[id]])))
  {
    hide Screen, RecentOffers, OpenExists, Stale, Live, Opening, Swept;
    RecentAlike(a, b, product, email);
    if Stale(a.offers, product, email, a.now) ==> Live(a.offers, product, email, a.now) {
      OpenExistsAlike(a, b, product, email);
    } else {
      hide Alike;
      assert !ReachesIndex(a, id, product, email, amount, quantity);
      NotOpened(a, id, product, email, amount, quantity);
    }
  }

  lemma NotOpened(s: State, id: OfferId, product: ProductId, email: Email, amount: int, quantity: int)
    requires !ReachesIndex(s, id, product, email, amount, quantity)
    ensures && id !in s.offers && 1 <= amount && 0 <= quantity <= 10
            && Screen(Lookup(s.products, product), amount).Ok?
            && |RecentOffers(s.offers, product, email, s.now)| < DAILY_OFFERS
            ==> !Open(Opening(Screen(Lookup(s.products, product), amount).value, product, email, amount, quantity,
                              s.now))
  {
    hide Screen, RecentOffers;
  }

  lemma ExpireAlike(a: State, b: State, only: Option<StoreId>)
    requires Alike(a, b)
    ensures Alike(a, b.(offers := ExpireAll(b.offers, only, b.now)))
  {
    hide Swept, ExpireRow;
    var after := ExpireAll(b.offers, only, b.now);
    forall f | f in a.offers ensures Swept(a.offers[f], after[f], a.now) {
      ExpireSwept(a.offers[f], b.offers[f], a.now);
    }
  }

  /** A price check cannot tell the two runs apart. */
  lemma CheckLineAlike(a: State, b: State, store: StoreId, email: Email, l: Line, units: map<OfferId, int>)
    requires Alike(a, b)
    ensures CheckLine(a, store, email, l, units) == CheckLine(b, store, email, l, units)
  {
    if l.deal.Some? && l.deal.value in a.offers {
      var f := l.deal.value;
      assert f in a.offers && Swept(a.offers[f], b.offers[f], a.now);
    }
  }

  lemma PriceLineAlike(a: State, b: State, sid: SessionId)
    requires Alike(a, b)
    ensures Alike(PriceLineStep(a, sid).state, PriceLineStep(b, sid).state)
    ensures PriceLineStep(a, sid).reply == PriceLineStep(b, sid).reply
  {
    hide OffersSwept, CheckLine;
    if sid in a.sessions && a.sessions[sid].Pricing? {
      var p := a.sessions[sid];
      if p.k < |p.req.baskets| && p.i < |p.req.baskets[p.k].lines| {
        CheckLineAlike(a, b, p.req.baskets[p.k].store, p.req.email, p.req.baskets[p.k].lines[p.i], p.units);
      }
    }
  }

  lemma PayOneAlike(a: State, b: State, ref: Ref, id: OrderId, lone: bool)
    requires Alike(a, b) && DealsOk(a)
    ensures Alike(PayOne(a, ref, id, lone), PayOne(b, ref, id, lone))
  {
    hide Swept, RedeemRow, Bracket, Rising, Consented, Bounded;
    if AwaitsPayment(a.orders, id) {
      var o := a.orders[id];
      assert Honest(a.offers, o.email, o.lines);
      var x := RedeemAll(a.offers, o.lines, id);
      var y := RedeemAll(b.offers, o.lines, id);
      forall f | f in x ensures Swept(x[f], y[f], a.now) {
        assert Swept(a.offers[f], b.offers[f], a.now) && Sound(a.offers[f]);
        if Names(o.lines, f) {
          var i :| 0 <= i < |o.lines| && o.lines[i].deal == Some(f);
          assert DealLine(a.offers, o.email, o.lines[i]);
          RedeemSwept(a.offers[f], b.offers[f], a.now, id);
        }
      }
    }
  }

  lemma {:induction false} PayAllAlike(a: State, b: State, ref: Ref, rows: seq<OrderId>, lone: bool)
    requires Alike(a, b) && RowsOk(a.orders, a.index, a.ledger) && DealsOk(a)
    requires forall i :: 0 <= i < |rows| ==> rows[i] in a.orders && a.orders[rows[i]].ref == ref
    ensures Alike(PayAll(a, ref, rows, lone), PayAll(b, ref, rows, lone))
    decreases |rows|
  {
    hide Alike, DealsOk, Indexed, Credits, PayOne;
    if rows != [] {
      PayOneAlike(a, b, ref, rows[0], lone);
      PayOneOk(a, ref, rows[0], lone);
      PayOneDeals(a, ref, rows[0], lone);
      PayAllAlike(PayOne(a, ref, rows[0], lone), PayOne(b, ref, rows[0], lone), ref, rows[1..], lone);
    }
  }

  lemma CommitAlike(a: State, b: State, sid: SessionId)
    requires Alike(a, b) && TablesOk(a) && DealsOk(a)
    ensures Alike(CommitConfirmStep(a, sid).state, CommitConfirmStep(b, sid).state)
    ensures CommitConfirmStep(a, sid).reply == CommitConfirmStep(b, sid).reply
  {
    hide OffersSwept, DealsOk, RowsOk, PayAll;
    if sid in a.sessions && a.sessions[sid].Confirming? {
      var c := a.sessions[sid];
      CloseDeals(a, sid);
      PayAllAlike(Close(a, sid), Close(b, sid), c.ref, c.rows, c.lone);
    }
  }

  /** Steps that never look at the negotiations behave alike whatever those hold. */
  ghost predicate Blind(a: Step) {
    a.SetProduct? || a.BeginCheckout? || a.PlaceOrders? || a.Charge? || a.BeginConfirm? || a.MarkAbandoned?
    || a.VendorWrites? || a.OnOrder? || a.BeginSweep? || a.Sweep? || a.PayOut? || a.Deposit?
  }

  lemma ActBlind(s: State, offers: map<OfferId, Offer>, id: OrderId, m: Move)
    ensures ActOn(s.(offers := offers), id, m) == Out(ActOn(s, id, m).state.(offers := offers), ActOn(s, id, m).reply)
  {
    hide Act, Apply, HasHeld;
  }

  lemma BlindPlace(s: State, offers: map<OfferId, Offer>, sid: SessionId, ids: seq<OrderId>)
    ensures PlaceOrdersStep(s.(offers := offers), sid, ids)
         == Out(PlaceOrdersStep(s, sid, ids).state.(offers := offers), PlaceOrdersStep(s, sid, ids).reply)
  {
    hide FreshIds, Insertable, InsertOrders, InsertError, RowsOf, ValidRequest;
    var x, y := PlaceOrdersStep(s.(offers := offers), sid, ids), PlaceOrdersStep(s, sid, ids);
    assert x.reply == y.reply;
  }

  lemma BlindCheckout(s: State, offers: map<OfferId, Offer>, sid: SessionId, req: Checkout)
    ensures BeginCheckoutStep(s.(offers := offers), sid, req)
         == Out(BeginCheckoutStep(s, sid, req).state.(offers := offers), BeginCheckoutStep(s, sid, req).reply)
  {
    hide ValidRequest;
  }

  lemma BlindConfirm(s: State, offers: map<OfferId, Offer>, sid: SessionId, ref: Ref, rows: seq<OrderId>)
    ensures BeginConfirmStep(s.(offers := offers), sid, ref, rows)
         == Out(BeginConfirmStep(s, sid, ref, rows).state.(offers := offers), BeginConfirmStep(s, sid, ref, rows).reply)
  {
    hide SumTotals, AwaitsPayment, RowsOf;
  }

  lemma BlindBeginSweep(s: State, offers: map<OfferId, Offer>, sid: SessionId, rows: seq<OrderId>)
    ensures BeginSweepStep(s.(offers := offers), sid, rows)
         == Out(BeginSweepStep(s, sid, rows).state.(offers := offers), BeginSweepStep(s, sid, rows).reply)
  {
    hide DueRows;
  }

  lemma BlindOpen(s: State, offers: map<OfferId, Offer>, step: Step)
    requires step.BeginCheckout? || step.PlaceOrders? || step.BeginConfirm? || step.BeginSweep?
    ensures Next(s.(offers := offers), step) == Out(Next(s, step).state.(offers := offers), Next(s, step).reply)
  {
    hide BeginCheckoutStep, PlaceOrdersStep, BeginConfirmStep, BeginSweepStep;
    match step
    case BeginCheckout(sid, req) => BlindCheckout(s, offers, sid, req);
    case PlaceOrders(sid, ids) => BlindPlace(s, offers, sid, ids);
    case BeginConfirm(sid, ref, rows) => BlindConfirm(s, offers, sid, ref, rows);
    case BeginSweep(sid, rows) => BlindBeginSweep(s, offers, sid, rows);
  }

  lemma BlindSweep(s: State, offers: map<OfferId, Offer>, sid: SessionId)
    ensures SweepStep(s.(offers := offers), sid)
         == Out(SweepStep(s, sid).state.(offers := offers), SweepStep(s, sid).reply)
  {
    hide ActOn;
    if sid in s.sessions && s.sessions[sid].Sweeping? && s.sessions[sid].pos < |s.sessions[sid].rows| {
      ActBlind(s, offers, s.sessions[sid].rows[s.sessions[sid].pos], SweepMark);
      ActBlind(s, offers, s.sessions[sid].rows[s.sessions[sid].pos], SweepRelease);
    }
  }

  lemma BlindVendor(s: State, offers: map<OfferId, Offer>, id: OrderId, store: StoreId, status: OrderStatus)
    ensures VendorWritesStep(s.(offers := offers), id, store, status)
         == Out(VendorWritesStep(s, id, store, status).state.(offers := offers),
                VendorWritesStep(s, id, store, status).reply)
  {
    hide ActOn, FulfilmentOf;
    if id in s.orders { ActBlind(s, offers, id, VendorSets(store, status, FulfilmentOf(s.orders, id))); }
  }

  lemma BlindOrder(s: State, offers: map<OfferId, Offer>, step: Step)
    requires step.VendorWrites? || step.OnOrder? || step.Sweep?
    ensures Next(s.(offers := offers), step) == Out(Next(s, step).state.(offers := offers), Next(s, step).reply)
  {
    hide VendorWritesStep, ActOn, SweepStep;
    match step
    case VendorWrites(id, store, status) => BlindVendor(s, offers, id, store, status);
    case OnOrder(id, m) => ActBlind(s, offers, id, m);
    case Sweep(sid) => BlindSweep(s, offers, sid);
  }

  lemma BlindMoney(s: State, offers: map<OfferId, Offer>, step: Step)
    requires step.SetProduct? || step.Charge? || step.MarkAbandoned? || step.PayOut? || step.Deposit?
    ensures Next(s.(offers := offers), step) == Out(Next(s, step).state.(offers := offers), Next(s, step).reply)
  {
    hide CreateOfferStep, BuyerMoveStep, VendorMoveStep, ExpireAll, PriceLineStep, CommitConfirmStep, AbandonAll,
         BeginCheckoutStep, PlaceOrdersStep, BeginConfirmStep, BeginSweepStep, ActOn, VendorWritesStep, SweepStep,
             Total, Insert;
  }

  lemma BlindFrame(s: State, step: Step)
    requires Blind(step)
    ensures Next(s, step).state.offers == s.offers && Next(s, step).state.now == s.now
  {
    hide CreateOfferStep, BuyerMoveStep, VendorMoveStep, ExpireAll, BeginCheckoutStep, PriceLineStep,
         PlaceOrdersStep, BeginConfirmStep, CommitConfirmStep, AbandonAll, VendorWritesStep, ActOn,
         BeginSweepStep, SweepStep, WithdrawStep, DepositStep;
  }

  lemma BlindAlike(a: State, b: State, step: Step)
    requires Alike(a, b) && Blind(step)
    ensures Alike(Next(a, step).state, Next(b, step).state)
    ensures Next(a, step).reply == Next(b, step).reply
  {
    hide Next, OffersSwept;
    BlindFrame(a, step);
    if step.BeginCheckout? || step.PlaceOrders? || step.BeginConfirm? || step.BeginSweep? {
      BlindOpen(a, b.offers, step);
    } else if step.VendorWrites? || step.OnOrder? || step.Sweep? {
      BlindOrder(a, b.offers, step);
    } else {
      BlindMoney(a, b.offers, step);
    }
  }

  /** A CreateOffer that would meet a lapsed row the sweep has not reached. */
  ghost predicate MeetsStale(s: State, step: Step) {
    step.CreateOffer? && BlockedByStale(s, step.id, step.product, step.email, step.amount, step.quantity)
  }

  /** Every step but the sweep itself gives the same reply in both runs and keeps them alike. */
  lemma {:induction false} StepAlike(a: State, b: State, step: Step)
    requires Alike(a, b) && TablesOk(a) && DealsOk(a)
    requires !step.ExpireOffers? && !MeetsStale(a, step)
    ensures Alike(Next(a, step).state, Next(b, step).state)
    ensures Next(a, step).reply == Next(b, step).reply
  {
    hide TablesOk, DealsOk, OffersSwept, BlockedByStale, CreateOfferStep, BuyerMoveStep, VendorMoveStep, ExpireAll,
         BeginCheckoutStep,
         PriceLineStep, PlaceOrdersStep, BeginConfirmStep, CommitConfirmStep, AbandonAll, VendorWritesStep, ActOn,
         BeginSweepStep, SweepStep, WithdrawStep, DepositStep;
    match step
    case Tick(to) => TickAlike(a, b, to);
    case CreateOffer(id, product, email, amount, quantity) => CreateAlike(a, b, id, product, email, amount, quantity);
    case BuyerMoves(id, who, answer) => BuyerAlike(a, b, id, who, answer);
    case VendorMoves(id, store, answer) => VendorAlike(a, b, id, store, answer);
    case PriceLine(sid) => PriceLineAlike(a, b, sid);
    case CommitConfirm(sid) => CommitAlike(a, b, sid);
    case _ => BlindAlike(a, b, step);
  }

  lemma TickAlike(a: State, b: State, to: int)
    requires Alike(a, b)
    ensures Alike(Next(a, Tick(to)).state, Next(b, Tick(to)).state)
  {
    hide Swept;
    var later := if to > a.now then to else a.now;
    forall f | f in a.offers ensures Swept(a.offers[f], b.offers[f], later) {
      SweptLater(a.offers[f], b.offers[f], a.now, later);
    }
  }

  // ---------- Whole runs ----------

  function WithoutSweeps(steps: seq<Step>): seq<Step> {
    if steps == [] then []
    else (if steps[0].ExpireOffers? then [] else [steps[0]]) + WithoutSweeps(steps[1..])
  }

  /** The answers given to everyone but the sweep. */
  function Replies(s: State, steps: seq<Step>): seq<Result<()>>
    decreases |steps|
  {
    if steps == [] then []
    else
      (if steps[0].ExpireOffers? then [] else [Next(s, steps[0]).reply])
      + Replies(Next(s, steps[0]).state, steps[1..])
  }

  ghost predicate NeverMeetsStale(s: State, steps: seq<Step>)
    decreases |steps|
  {
    steps != [] ==> !MeetsStale(s, steps[0]) && NeverMeetsStale(Next(s, steps[0]).state, steps[1..])
  }

  lemma {:induction false} RunsAlike(a: State, b: State, steps: seq<Step>)
    requires Alike(a, b) && TablesOk(a) && DealsOk(a)
    requires NeverMeetsStale(a, WithoutSweeps(steps))
    ensures Replies(a, WithoutSweeps(steps)) == Replies(b, steps)
    ensures Alike(Run(a, WithoutSweeps(steps)), Run(b, steps))
    decreases |steps|
  {
    hide Next, Alike, TablesOk, DealsOk, MeetsStale;
    if steps != [] {
      var step := steps[0];
      if step.ExpireOffers? {
        assert WithoutSweeps(steps) == WithoutSweeps(steps[1..]);
        assert Replies(b, steps) == Replies(Next(b, step).state, steps[1..]);
        ExpireAlike(a, b, step.only);
        SweepStepState(b, step.only);
        RunsAlike(a, Next(b, step).state, steps[1..]);
      } else {
        assert WithoutSweeps(steps)[1..] == WithoutSweeps(steps[1..]);
        StepAlike(a, b, step);
        StepOk(a, step);
        StepDeals(a, step);
        RunsAlike(Next(a, step).state, Next(b, step).state, steps[1..]);
      }
    }
  }

  lemma SweepStepState(s: State, only: Option<StoreId>)
    ensures Next(s, ExpireOffers(only)).state == s.(offers := ExpireAll(s.offers, only, s.now))
  {
  }

  /** Sweep independence. Two runs that differ only in where the expiry sweep runs, and for
      which stores, give everyone the same answers, show every reader the same statuses, and
      end with the same orders, ledger and redemptions. */
  lemma {:induction false} SweepIndependence(s: State, one: seq<Step>, two: seq<Step>)
    requires TablesOk(s) && DealsOk(s)
    requires WithoutSweeps(one) == WithoutSweeps(two)
    requires NeverMeetsStale(s, WithoutSweeps(one))
    ensures Replies(s, one) == Replies(s, two)
    ensures var t := Run(s, one);
            var u := Run(s, two);
            && u == t.(offers := u.offers)
            && u.offers.Keys == t.offers.Keys
            && forall f :: f in t.offers ==>
                 && Shown(t.offers[f], t.now) == Shown(u.offers[f], u.now)
                 && t.offers[f].agreed == u.offers[f].agreed
                 && t.offers[f].redeemedBy == u.offers[f].redeemedBy
                 && Spoken(t.offers[f].log) == Spoken(u.offers[f].log)
  {
    hide Next, TablesOk, DealsOk, NeverMeetsStale, Swept;
    forall f | f in s.offers ensures Swept(s.offers[f], s.offers[f], s.now) {
      SweptItself(s.offers[f], s.now);
    }
    RunsAlike(s, s, one);
    RunsAlike(s, s, two);
    var t := Run(s, one);
    var u := Run(s, two);
    var base := Run(s, WithoutSweeps(one));
    forall f | f in t.offers
      ensures Shown(t.offers[f], t.now) == Shown(u.offers[f], u.now)
      ensures t.offers[f].agreed == u.offers[f].agreed && t.offers[f].redeemedBy == u.offers[f].redeemedBy
      ensures Spoken(t.offers[f].log) == Spoken(u.offers[f].log)
    {
      SweptPair(base.offers[f], t.offers[f], u.offers[f], base.now);
    }
  }

  lemma SweptItself(x: Offer, now: int)
    ensures Swept(x, x, now)
  {
  }

  lemma SweptPair(x: Offer, y: Offer, z: Offer, now: int)
    requires Swept(x, y, now) && Swept(x, z, now)
    ensures Shown(y, now) == Shown(z, now) && y.agreed == z.agreed && y.redeemedBy == z.redeemedBy
            && Spoken(y.log) == Spoken(z.log)
  {
  }

  // ---------- Where the sweep does matter ----------

  lemma SweptSelf(s: State)
    ensures Alike(s, s.(offers := ExpireAll(s.offers, None, s.now)))
  {
    hide Swept, ExpireRow;
    forall f | f in s.offers ensures Swept(s.offers[f], ExpireRow(s.offers[f], s.now), s.now) {
      SweptItself(s.offers[f], s.now);
      ExpireSwept(s.offers[f], s.offers[f], s.now);
    }
  }

  /** CreateOffer is the one answer that depends on the sweep, exactly when its unique index
      is all that stands in the way, a lapsed row is still marked open, and no live one is. */
  lemma CreateDependsOnSweep(s: State, id: OfferId, product: ProductId, email: Email, amount: int, quantity: int)
    ensures var swept := s.(offers := ExpireAll(s.offers, None, s.now));
            CreateOfferStep(s, id, product, email, amount, quantity).reply
              != CreateOfferStep(swept, id, product, email, amount, quantity).reply
            <==> BlockedByStale(s, id, product, email, amount, quantity)
  {
    hide Screen, RecentOffers, Spoken;
    var swept := s.(offers := ExpireAll(s.offers, None, s.now));
    SweptSelf(s);
    RecentAlike(s, swept, product, email);
    assert OpenExists(swept.offers, product, email) <==> Live(s.offers, product, email, s.now) by {
      if OpenExists(swept.offers, product, email) {
        var f :| f in swept.offers && Open(swept.offers[f]) && SameHaggle(swept.offers[f], product, email);
        assert f in s.offers && swept.offers[f] == ExpireRow(s.offers[f], s.now);
      }
      if Live(s.offers, product, email, s.now) {
        var f :| f in s.offers && Open(s.offers[f]) && !Lapsed(s.offers[f], s.now)
            && SameHaggle(s.offers[f], product, email);
        assert swept.offers[f] == s.offers[f];
      }
    }
    assert OpenExists(s.offers, product, email) <==>
           Live(s.offers, product, email, s.now) || Stale(s.offers, product, email, s.now);
  }

  /** A run that meets a stale row can be told apart: one sweep just before that CreateOffer
      changes the answer it gets. */
  lemma {:induction false} SweepMatters(s: State, steps: seq<Step>) returns (swept: seq<Step>)
    requires WithoutSweeps(steps) == steps && !NeverMeetsStale(s, steps)
    ensures WithoutSweeps(swept) == steps && Replies(s, swept) != Replies(s, steps)
    decreases |steps|
  {
    hide Next, MeetsStale;
    var a, rest := steps[0], steps[1..];
    SweepFree(steps);
    if MeetsStale(s, a) {
      swept := [ExpireOffers(None)] + steps;
      assert swept[1..] == steps;
      StaleTells(s, a);
      SweepStepState(s, None);
      var after := s.(offers := ExpireAll(s.offers, None, s.now));
      assert Replies(s, steps)[0] == Next(s, a).reply;
      assert Replies(s, swept) == Replies(after, steps);
      assert Replies(after, steps)[0] == Next(after, a).reply;
    } else {
      var tail := SweepMatters(Next(s, a).state, rest);
      swept := [a] + tail;
      assert swept[1..] == tail;
      assert Replies(s, swept)[1..] == Replies(Next(s, a).state, tail);
      assert Replies(s, steps)[1..] == Replies(Next(s, a).state, rest);
    }
  }

  lemma SweepFree(steps: seq<Step>)
    requires steps != [] && WithoutSweeps(steps) == steps
    ensures !steps[0].ExpireOffers? && WithoutSweeps(steps[1..]) == steps[1..]
  {
    SweepsShorten(steps[1..]);
  }

  lemma {:induction false} SweepsShorten(steps: seq<Step>)
    ensures |WithoutSweeps(steps)| <= |steps|
  {
    if steps != [] { SweepsShorten(steps[1..]); }
  }

  lemma StaleTells(s: State, a: Step)
    requires MeetsStale(s, a)
    ensures Next(s, a).reply != Next(s.(offers := ExpireAll(s.offers, None, s.now)), a).reply
  {
    hide CreateOfferStep, BlockedByStale, ExpireAll;
    CreateDependsOnSweep(s, a.id, a.product, a.email, a.amount, a.quantity);
  }

  /** Where the sweep runs makes no difference to a run's answers if and only if the run, left
      alone by the sweep, never has a CreateOffer that lapsed rows alone stand in the way of. */
  lemma SweepsInvisible(s: State, steps: seq<Step>)
    requires TablesOk(s) && DealsOk(s) && WithoutSweeps(steps) == steps
    ensures NeverMeetsStale(s, steps)
       <==> forall other :: WithoutSweeps(other) == steps ==> Replies(s, other) == Replies(s, steps)
  {
    hide Next, TablesOk, DealsOk, NeverMeetsStale, Replies;
    if NeverMeetsStale(s, steps) {
      forall other | WithoutSweeps(other) == steps ensures Replies(s, other) == Replies(s, steps) {
        SweepIndependence(s, other, steps);
      }
    } else {
      var swept := SweepMatters(s, steps);
      assert WithoutSweeps(swept) == steps;
    }
  }
}
