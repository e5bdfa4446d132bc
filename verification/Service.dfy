/** The orders service: its handlers as they run when nothing interleaves with them, each
    proved against the state machine or against what it promises outright. */
module Service {
  import opened Base
  import opened Negotiation
  import opened Answers
  import opened Ledger
  import opened Orders
  import opened Market
  import opened Confluence
  import opened AutoRelease
  import opened Baskets
  import opened Payments
  import opened Terms
  import opened Wallet

  // ---------- Pricing, declared ----------

  /** The server's price for a line: the catalogue's, or a live deal's. */
  ghost predicate PricedRight(s: State, store: StoreId, email: Email, l: Line) {
    && l.product in s.products && s.products[l.product].published && s.products[l.product].store == store
    && match l.deal {
         case None => l.price == s.products[l.product].price
         case Some(f) =>
           && f in s.offers && s.offers[f].product == l.product && s.offers[f].email == email
           && s.offers[f].status.Accepted? && s.now <= s.offers[f].expires && s.offers[f].agreed == Some(l.price)
       }
  }

  /** A store's lines are as the server prices them, and no deal is stretched past its quantity. */
  ghost predicate Agreed(s: State, store: StoreId, email: Email, lines: seq<Line>) {
    && (forall i :: 0 <= i < |lines| ==> PricedRight(s, store, email, lines[i]))
    && (forall f :: Names(lines, f) && f in s.offers ==> DealUnits(lines, f) <= s.offers[f].quantity)
  }

  lemma {:induction false} UnitsGrow(lines: seq<Line>, i: int, f: OfferId)
    requires 0 <= i <= |lines|
    requires forall j :: 0 <= j < |lines| ==> ValidLine(lines[j])
    ensures DealUnits(lines[..i], f) <= DealUnits(lines, f)
    decreases |lines| - i
  {
    if i == |lines| {
      assert lines[..i] == lines;
    } else {
      assert lines[..i + 1] == lines[..i] + [lines[i]];
      DealUnitsAppend(lines[..i], lines[i], f);
      UnitsGrow(lines, i + 1, f);
    }
  }

  /** The machine's price check of one line is the declared one, with the running count. */
  lemma CheckLineExact(s: State, store: StoreId, email: Email, lines: seq<Line>, l: Line, units: map<OfferId, int>)
    requires forall f :: (if f in units then units[f] else 0) == DealUnits(lines, f)
    ensures CheckLine(s, store, email, l, units).Ok? <==>
            && PricedRight(s, store, email, l)
            && (l.deal.Some? && l.deal.value in s.offers ==>
                  DealUnits(lines + [l], l.deal.value) <= s.offers[l.deal.value].quantity)
  {
    if l.deal.Some? {
      DealUnitsAppend(lines, l, l.deal.value);
    }
  }

  /** A turn of the machine's pricing loop takes a line exactly when the server's price and the deal's
      quantity cover it, and moves on to the next; a refusal ends the checkout. */
  lemma PriceLineExact(s: State, sid: SessionId, lines: seq<Line>)
    requires sid in s.sessions && s.sessions[sid].Pricing?
    requires var p := s.sessions[sid];
             && p.k < |p.req.baskets| && p.i < |p.req.baskets[p.k].lines| && lines == p.req.baskets[p.k].lines[..p.i]
             && Counted(p.units, lines)
    ensures var p := s.sessions[sid];
            var l := p.req.baskets[p.k].lines[p.i];
            var out := PriceLineStep(s, sid);
            && (out.reply.Ok? <==>
                 && PricedRight(s, p.req.baskets[p.k].store, p.req.email, l)
                 && (l.deal.Some? && l.deal.value in s.offers ==>
                       DealUnits(lines + [l], l.deal.value) <= s.offers[l.deal.value].quantity))
            && (if out.reply.Ok? then
                  && sid in out.state.sessions && out.state.sessions[sid].Pricing?
                  && out.state.sessions[sid].req == p.req
                  && out.state.sessions[sid].k == p.k && out.state.sessions[sid].i == p.i + 1
                  && Counted(out.state.sessions[sid].units, lines + [l])
                else
                  out.state == s.(sessions := s.sessions - {sid}))
  {
    var p := s.sessions[sid];
    var b, l := p.req.baskets[p.k], p.req.baskets[p.k].lines[p.i];
    CheckLineExact(s, b.store, p.req.email, lines, l, p.units);
    if CheckLine(s, b.store, p.req.email, l, p.units).Ok? {
      MoreCounted(s, b.store, p.req.email, lines, l, p.units);
    }
    hide CheckLine, PricedRight, DealUnits, Counted;
  }

  /** The running counts are those of the lines so far. */
  ghost predicate Counted(units: map<OfferId, int>, lines: seq<Line>) {
    forall f :: (if f in units then units[f] else 0) == DealUnits(lines, f)
  }

  /** One more line: accepted, the lines so far are agreed and counted; refused, no extension of
      them is agreed. */
  lemma NextItem(s: State, store: StoreId, email: Email, lines: seq<Line>, i: int, units: map<OfferId, int>)
    requires 0 <= i < |lines| && forall j :: 0 <= j < |lines| ==> ValidLine(lines[j])
    requires Counted(units, lines[..i]) && Agreed(s, store, email, lines[..i])
    ensures match CheckLine(s, store, email, lines[i], units) {
              case Ok(more) => Counted(more, lines[..i + 1]) && Agreed(s, store, email, lines[..i + 1])
              case Err(e) => e == BadRequest && !Agreed(s, store, email, lines)
            }
  {
    var l := lines[i];
    assert lines[..i + 1] == lines[..i] + [l];
    CheckLineExact(s, store, email, lines[..i], l, units);
    if CheckLine(s, store, email, l, units).Ok? {
      MoreCounted(s, store, email, lines[..i], l, units);
      hide CheckLine;
      MoreAgreed(s, store, email, lines[..i], l);
    } else {
      CheckLineErr(s, store, email, l, units);
      hide CheckLine;
      if PricedRight(s, store, email, l) {
        hide PricedRight;
        UnitsGrow(lines, i + 1, l.deal.value);
        assert Names(lines, l.deal.value);
      }
    }
  }

  lemma CheckLineErr(s: State, store: StoreId, email: Email, l: Line, units: map<OfferId, int>)
    requires CheckLine(s, store, email, l, units).Err?
    ensures CheckLine(s, store, email, l, units).error == BadRequest
  {
  }

  lemma MoreCounted(s: State, store: StoreId, email: Email, lines: seq<Line>, l: Line, units: map<OfferId, int>)
    requires Counted(units, lines) && CheckLine(s, store, email, l, units).Ok?
    ensures Counted(CheckLine(s, store, email, l, units).value, lines + [l])
  {
    hide DealUnits;
    forall f ensures DealUnits(lines + [l], f) == DealUnits(lines, f) + (if l.deal == Some(f) then l.quantity else 0) {
      DealUnitsAppend(lines, l, f);
    }
  }

  lemma MoreAgreed(s: State, store: StoreId, email: Email, lines: seq<Line>, l: Line)
    requires Agreed(s, store, email, lines) && PricedRight(s, store, email, l)
    requires l.deal.Some? && l.deal.value in s.offers ==>
               DealUnits(lines + [l], l.deal.value) <= s.offers[l.deal.value].quantity
    ensures Agreed(s, store, email, lines + [l])
  {
    hide DealUnits, PricedRight;
    var more := lines + [l];
    forall f | Names(more, f) && f in s.offers ensures DealUnits(more, f) <= s.offers[f].quantity {
      if l.deal != Some(f) {
        DealUnitsAppend(lines, l, f);
        var j :| 0 <= j < |more| && more[j].deal == Some(f);
        assert lines[j].deal == Some(f);
      }
    }
  }

  // ---------- Who delivers ----------

  /** The orders of a reference name at least two stores. */
  ghost predicate SeveralStores(orders: map<OrderId, Order>, rows: seq<OrderId>) {
    exists i, j :: 0 <= i < |rows| && 0 <= j < |rows| && rows[i] in orders && rows[j] in orders
                   && orders[rows[i]].store != orders[rows[j]].store
  }

  lemma ColumnSaysHub(orders: map<OrderId, Order>, ref: Ref, rows: seq<OrderId>, k: int)
    requires ref != "" && 0 <= k < |rows|
    requires forall id :: id in rows <==> id in orders && orders[id].ref == ref
    ensures rows[k] in orders
    ensures FulfilmentOf(orders, rows[k]).ByGoMarketi? <==> SeveralStores(orders, rows)
  {
    assert rows[k] in rows;
    if FulfilmentOf(orders, rows[k]).ByGoMarketi? {
      var other :| other in orders && orders[other].ref == ref && orders[other].store != orders[rows[k]].store;
      assert other in rows;
      var j :| 0 <= j < |rows| && rows[j] == other;
    }
    if SeveralStores(orders, rows) {
      var i, j :| 0 <= i < |rows| && 0 <= j < |rows| && rows[i] in orders && rows[j] in orders
                  && orders[rows[i]].store != orders[rows[j]].store;
      assert rows[i] in rows && rows[j] in rows;
      assert orders[rows[i]].store != orders[rows[k]].store || orders[rows[j]].store != orders[rows[k]].store;
    }
  }

  /** ConfirmPayment's test for a lone order agrees with the derived column on every order of
      the reference, except on a reference that holds several orders of one single store. */
  lemma WhoDelivers(orders: map<OrderId, Order>, ref: Ref, rows: seq<OrderId>)
    requires ref != "" && rows != []
    requires forall id :: id in rows <==> id in orders && orders[id].ref == ref
    ensures forall k :: 0 <= k < |rows| ==> rows[k] in orders
    ensures (forall k :: 0 <= k < |rows| ==> (|rows| == 1 <==> FulfilmentOf(orders, rows[k]).ByVendor?))
       <==> (|rows| == 1 || SeveralStores(orders, rows))
  {
    hide FulfilmentOf;
    forall k | 0 <= k < |rows|
      ensures rows[k] in orders && (FulfilmentOf(orders, rows[k]).ByGoMarketi? <==> SeveralStores(orders, rows))
    {
      ColumnSaysHub(orders, ref, rows, k);
    }
    assert rows[0] in orders;
    assert |rows| == 1 ==> !SeveralStores(orders, rows);
  }

  // ---------- The service ----------

  class OrdersService {
    var now: int
    var products: map<ProductId, Product>
    var offers: map<OfferId, Offer>
    var orders: map<OrderId, Order>
    var index: map<Ref, seq<OrderId>>
    var ledger: seq<Entry>
    var charges: map<Ref, int>

    /** The tables, with no other call in flight. */
    function Tables(): State
      reads this
    {
      State(now, products, offers, orders, index, ledger, charges, map[])
    }

    // ----- Haggling -----

    method CreateOffer(id: OfferId, product: ProductId, email: Email, amount: int, quantity: int)
        returns (r: Result<()>)
      modifies `offers
      ensures Out(Tables(), r) == CreateOfferStep(old(Tables()), id, product, email, amount, quantity)
      ensures r.Ok? <==>
              && id !in old(offers) && 1 <= amount && 0 <= quantity <= 10
              && product in products && OpeningMay(Some(products[product]), amount)
              && |OpenedToday(old(offers), product, email, now)| < 3
              && (AtFloor(Some(products[product]), amount) || NoneOpen(old(offers), product, email))
      ensures r.Ok? ==>
              && id in offers && offers == old(offers)[id := offers[id]]
              && OpeningLeft(products[product], product, email, amount, quantity, now, offers[id])
      ensures r.Err? ==>
              && offers == old(offers)
              && r.error == if id in old(offers) then Internal
                            else if amount < 1 || quantity < 0 || quantity > 10 then BadRequest
                            else if product !in products || !products[product].published then NotFound
                            else if !OpeningMay(Some(products[product]), amount) then BadRequest
                            else if |OpenedToday(old(offers), product, email, now)| >= 3 then TooManyRequests
                            else Conflict
    {
      OpeningAnswered(Lookup(products, product), product, email, amount, quantity, now);
      TodayAre(offers, product, email, now);
      if id in offers { return Err(Internal); }
      if amount < 1 || quantity < 0 || quantity > 10 { return Err(BadRequest); }
      var screened := Screen(Lookup(products, product), amount);
      if screened.Err? { return Err(screened.error); }
      if |RecentOffers(offers, product, email, now)| >= DAILY_OFFERS { return Err(TooManyRequests); }
      var row := Opening(screened.value, product, email, amount, quantity, now);
      if Open(row) && OpenExists(offers, product, email) { return Err(Conflict); }
      offers := offers[id := row];
      r := Ok(());
    }

    method SettleOffer(id: OfferId, status: OfferStatus, agreed: Option<int>)
      requires id in offers
      modifies `offers
      ensures offers == old(offers)[id := Settle(old(offers)[id], status, agreed, now)]
    {
      var o := offers[id].(status := status);
      if agreed.Some? { o := o.(agreed := agreed); }
      if status.Accepted? { o := o.(expires := now + OFFER_WINDOW); }
      offers := offers[id := o];
    }

    method AddOfferEvent(id: OfferId, actor: Actor, deed: Deed, amount: Option<int>, floor: Option<int>)
      requires id in offers
      modifies `offers
      ensures offers == old(offers)[id := Logged(old(offers)[id], Event(actor, deed, amount, floor))]
    {
      offers := offers[id := offers[id].(log := offers[id].log + [Event(actor, deed, amount, floor)])];
    }

    /** The buyer comes back with a new offer. */
    method CounterAsBuyer(id: OfferId, amount: int) returns (r: Result<()>)
      requires id in offers && !Lapsed(offers[id], now)
      modifies `offers
      ensures var o := old(offers)[id];
              Out(Tables(), r) == WithOffer(old(Tables()), id,
                                            BuyerMove(o, now, Counter(amount), Lookup(products, o.product)))
    {
      var o := offers[id];
      if !o.status.Countered? || o.counter.None? { return Err(BadRequest); }
      if o.buyerOffers >= MAX_BUYER_OFFERS { return Err(BadRequest); }
      if amount <= o.offer || amount >= o.counter.value { return Err(BadRequest); }
      if o.product !in products { return Err(NotFound); }
      var instant := ClearsFloor(products[o.product], amount);
      var status, agreed := Pending, None;
      if instant { status, agreed := Accepted, Some(amount); }
      offers := offers[id := o.(offer := amount, buyerOffers := o.buyerOffers + 1, status := status,
                                agreed := agreed, auto := instant, expires := now + OFFER_WINDOW)];
      AddOfferEvent(id, Buyer, Offers, Some(amount), None);
      if instant { AddOfferEvent(id, System, Accepts, Some(amount), products[o.product].floor); }
      r := Ok(());
    }

    method RespondAsBuyer(id: OfferId, who: Option<Email>, answer: Answer) returns (r: Result<()>)
      modifies `offers
      ensures Out(Tables(), r) == BuyerMoveStep(old(Tables()), id, who, answer)
      ensures r.Ok? <==>
              && id in old(offers) && (who.Some? ==> who.value == old(offers)[id].email)
              && BuyerMay(old(offers)[id], now, answer)
              && (answer.Counter? ==> old(offers)[id].product in products)
      ensures r.Ok? ==>
              && id in offers && offers == old(offers)[id := offers[id]]
              && BuyerLeft(old(offers)[id], offers[id], now, answer, Lookup(products, old(offers)[id].product))
      ensures r.Err? ==>
              && offers == old(offers)
              && r.error == if id in old(offers) && (who.Some? ==> who.value == old(offers)[id].email)
                               && !BuyerMay(old(offers)[id], now, answer) then BadRequest else NotFound
    {
      BuyerStepExact(Tables(), id, who, answer);
      hide BuyerMay, BuyerLeft;
      if id !in offers { return Err(NotFound); }
      var o := offers[id];
      if who.Some? && who.value != o.email { return Err(NotFound); }
      if Lapsed(o, now) { return Err(BadRequest); }
      match answer {
        case Accept =>
          if !o.status.Countered? || o.counter.None? { return Err(BadRequest); }
          SettleOffer(id, Accepted, o.counter);
          AddOfferEvent(id, Buyer, Accepts, o.counter, None);
        case Decline =>
          if !o.status.Countered? { return Err(BadRequest); }
          SettleOffer(id, Declined, None);
          AddOfferEvent(id, Buyer, Declines, None, None);
        case Counter(amount) =>
          r := CounterAsBuyer(id, amount);
          return;
        case Withdraw =>
          if !Open(o) { return Err(BadRequest); }
          SettleOffer(id, Withdrawn, None);
          AddOfferEvent(id, Buyer, Withdraws, None, None);
      }
      r := Ok(());
    }

    method RespondAsVendor(store: StoreId, id: OfferId, answer: Answer) returns (r: Result<()>)
      modifies `offers
      ensures Out(Tables(), r) == VendorMoveStep(old(Tables()), id, store, answer)
      ensures r.Ok? <==> id in old(offers) && VendorMay(old(offers)[id], now, store, answer)
      ensures r.Ok? ==>
              && id in offers && offers == old(offers)[id := offers[id]]
              && VendorLeft(old(offers)[id], offers[id], now, answer)
      ensures r.Err? ==>
              && offers == old(offers)
              && r.error == if id in old(offers) && old(offers)[id].store == store then BadRequest else NotFound
    {
      VendorStepExact(Tables(), id, store, answer);
      hide VendorMay, VendorLeft;
      if id !in offers { return Err(NotFound); }
      var o := offers[id];
      if o.store != store { return Err(NotFound); }
      if Lapsed(o, now) { return Err(BadRequest); }
      match answer {
        case Accept =>
          if !o.status.Pending? { return Err(BadRequest); }
          SettleOffer(id, Accepted, Some(o.offer));
          AddOfferEvent(id, Vendor, Accepts, Some(o.offer), None);
        case Counter(amount) =>
          if !o.status.Pending? { return Err(BadRequest); }
          if amount <= o.offer || amount >= o.list { return Err(BadRequest); }
          offers := offers[id := o.(counter := Some(amount), status := Countered, expires := now + OFFER_WINDOW)];
          AddOfferEvent(id, Vendor, Counters, Some(amount), None);
        case Decline =>
          if !Open(o) { return Err(BadRequest); }
          SettleOffer(id, Declined, None);
          AddOfferEvent(id, Vendor, Declines, None, None);
        case Withdraw => return Err(BadRequest);
      }
      r := Ok(());
    }

    /** One sweep: every lapsed row in scope is marked and logged, every other row is as it was. */
    method ExpireOffers(only: Option<StoreId>)
      modifies `offers
      ensures Tables() == Next(old(Tables()), Step.ExpireOffers(only)).state
      ensures offers.Keys == old(offers).Keys
      ensures forall f :: f in offers ==>
                offers[f] == if && (old(offers)[f].status == Pending || old(offers)[f].status == Countered
                                    || old(offers)[f].status == Accepted)
                                && now > old(offers)[f].expires && (only.Some? ==> old(offers)[f].store == only.value)
                             then old(offers)[f].(status := Expired,
                                                  log := old(offers)[f].log + [Event(System, Expires, None, None)])
                             else old(offers)[f]
    {
      offers := ExpireAll(offers, only, now);
    }

    // ----- Checkout -----

    /** One turn of the pricing loop: the checks on a line, and the running count it adds to. */
    method PriceItem(store: StoreId, email: Email, l: Line, units: map<OfferId, int>)
        returns (r: Result<map<OfferId, int>>)
      ensures r == CheckLine(Tables(), store, email, l, units)
    {
      if l.product !in products || !products[l.product].published { return Err(BadRequest); }
      if products[l.product].store != store { return Err(BadRequest); }
      if l.deal.None? {
        if l.price != products[l.product].price { return Err(BadRequest); }
        return Ok(units);
      }
      var f := l.deal.value;
      if f !in offers { return Err(BadRequest); }
      var d := offers[f];
      if d.product != l.product || d.email != email { return Err(BadRequest); }
      if d.status.Redeemed? { return Err(BadRequest); }
      if !d.status.Accepted? || now > d.expires || d.agreed.None? { return Err(BadRequest); }
      if l.price != d.agreed.value { return Err(BadRequest); }
      var n := (if f in units then units[f] else 0) + l.quantity;
      if n > d.quantity { return Err(BadRequest); }
      r := Ok(units[f := n]);
    }

    /** Accepts a store's lines exactly when every one is at the server's price and no deal is
        stretched past its quantity. */
    method PriceItems(store: StoreId, email: Email, lines: seq<Line>) returns (r: Result<()>)
      requires forall i :: 0 <= i < |lines| ==> ValidLine(lines[i])
      ensures r.Ok? <==> Agreed(Tables(), store, email, lines)
      ensures r.Err? ==> r.error == BadRequest
    {
      var dealUnits: map<OfferId, int> := map[];
      ghost var s := Tables();
      assert lines[..0] == [];
      hide CheckLine, Agreed;
      var i := 0;
      while i < |lines|
        invariant 0 <= i <= |lines|
        invariant Counted(dealUnits, lines[..i]) && Agreed(s, store, email, lines[..i])
      {
        NextItem(s, store, email, lines, i, dealUnits);
        var priced := PriceItem(store, email, lines[i], dealUnits);
        if priced.Err? { return Err(BadRequest); }
        dealUnits := priced.value;
        i := i + 1;
      }
      assert lines[..i] == lines;
      r := Ok(());
    }

    /** The pricing loop of a checkout: it stops at the first store whose lines are refused. */
    method PriceBaskets(req: Checkout) returns (r: Result<()>)
      requires ValidRequest(req)
      ensures r.Ok? <==> forall k :: 0 <= k < |req.baskets| ==>
                Agreed(Tables(), req.baskets[k].store, req.email, req.baskets[k].lines)
    {
      hide Agreed;
      var k := 0;
      while k < |req.baskets|
        invariant 0 <= k <= |req.baskets|
        invariant forall j :: 0 <= j < k ==> Agreed(Tables(), req.baskets[j].store, req.email, req.baskets[j].lines)
      {
        var priced := PriceItems(req.baskets[k].store, req.email, req.baskets[k].lines);
        if priced.Err? { return priced; }
        k := k + 1;
      }
      r := Ok(());
    }

    /** The insertion loop of a checkout, before its transaction commits. */
    method InsertOrdersTx(req: Checkout, ids: seq<OrderId>) returns (r: Result<()>, written: map<OrderId, Order>)
      requires ValidRequest(req) && |ids| == |req.baskets|
      ensures r.Ok? <==> Insertable(req)
      ensures r.Err? ==> r.error == InsertError(req)
      ensures r.Ok? ==> written == InsertOrders(orders, req, ids, |ids|, now)
      ensures r.Ok? && FreshIds(orders, ids) ==> AllPlaced(orders, written, req, ids, now)
    {
      written := orders;
      var k := 0;
      while k < |req.baskets|
        invariant 0 <= k <= |req.baskets|
        invariant written == InsertOrders(orders, req, ids, k, now)
        invariant req.isPickup && k > 0 ==> req.fee == 0
        invariant forall j :: 0 <= j < k ==> LinesTotal(req.baskets[j].lines) > 0
      {
        if LinesTotal(req.baskets[k].lines) <= 0 { return Err(BadRequest), orders; }
        if req.isPickup && FeeOf(req, k) != 0 { return Err(Internal), orders; }
        written := written[ids[k] := NewOrder(req, k, now)];
        k := k + 1;
      }
      if FreshIds(orders, ids) { InsertedColumns(orders, req, ids, now); }
      r := Ok(());
    }

    /** One order per store, all sharing a reference, all written or none. The ids are the
        database's. */
    method PlaceCheckout(req: Checkout, ids: seq<OrderId>) returns (r: Result<()>)
      requires ValidRequest(req) && |ids| == |req.baskets| && FreshIds(orders, ids)
      modifies `orders, `index
      ensures r.Ok? <==>
              && (forall k :: 0 <= k < |req.baskets| ==>
                    Agreed(old(Tables()), req.baskets[k].store, req.email, req.baskets[k].lines))
              && (req.isPickup ==> req.fee == 0)
              && (forall k :: 0 <= k < |req.baskets| ==> LinesTotal(req.baskets[k].lines) > 0)
      ensures r.Ok? ==>
              && orders == InsertOrders(old(orders), req, ids, |ids|, now)
              && AllPlaced(old(orders), orders, req, ids, now)
              && index == old(index)[req.ref := RowsOf(old(index), req.ref) + ids]
              && SumTotals(orders, ids) == BasketsTotal(req.baskets) + req.fee
      ensures r.Err? ==> orders == old(orders) && index == old(index)
    {
      InsertableIs(req);
      hide Agreed, InsertOrders, Insertable, AllPlaced;
      r := PriceBaskets(req);
      if r.Err? { return; }
      var written;
      r, written := InsertOrdersTx(req, ids);
      if r.Err? { return; }
      TotalsReconcile(orders, req, ids, |ids|, now);
      assert ids[..|ids|] == ids && req.baskets[..|req.baskets|] == req.baskets;
      orders := written;
      index := index[req.ref := RowsOf(index, req.ref) + ids];
    }

    // ----- Payment -----

    /** The first pass over the rows: is there anything to pay for, and how much is it all? */
    method ReadTargets(rows: seq<OrderId>) returns (allPaid: bool, grandTotal: int)
      ensures allPaid <==> forall i :: 0 <= i < |rows| ==> !AwaitsPayment(orders, rows[i])
      ensures grandTotal == SumTotals(orders, rows)
    {
      allPaid, grandTotal := true, 0;
      var i := 0;
      while i < |rows|
        invariant 0 <= i <= |rows|
        invariant allPaid <==> forall j :: 0 <= j < i ==> !AwaitsPayment(orders, rows[j])
        invariant grandTotal + SumTotals(orders, rows[i..]) == SumTotals(orders, rows)
      {
        if AwaitsPayment(orders, rows[i]) { allPaid := false; }
        assert rows[i..][1..] == rows[i + 1..];
        if rows[i] in orders { grandTotal := grandTotal + orders[rows[i]].total; }
        i := i + 1;
      }
    }

    /** The transaction's loop: pay, credit and redeem whatever still awaits payment. */
    method PayTargets(ref: Ref, rows: seq<OrderId>, lone: bool)
      modifies `orders, `ledger, `offers
      ensures Tables() == PayAll(old(Tables()), ref, rows, lone)
    {
      hide RedeemAll, CreditRow, Insert, AwaitsPayment;
      ghost var s := Tables();
      var i := 0;
      assert rows[0..] == rows;
      while i < |rows|
        invariant 0 <= i <= |rows|
        invariant PayAll(Tables(), ref, rows[i..], lone) == PayAll(s, ref, rows, lone)
      {
        ghost var before := Tables();
        assert rows[i..][0] == rows[i] && rows[i..][1..] == rows[i + 1..];
        if AwaitsPayment(orders, rows[i]) {
          AwaitingIsThere(orders, rows[i]);
          var o := orders[rows[i]];
          orders := orders[rows[i] := o.(status := Confirmed, paid := Some(now))];
          ledger := Insert(ledger, CreditRow(o, rows[i], ref, lone));
          offers := RedeemAll(offers, o.lines, rows[i]);
        }
        assert Tables() == PayOne(before, ref, rows[i], lone);
        i := i + 1;
      }
    }

    /** One undisturbed call: the rows, the verification, then the transaction. */
    method ConfirmPayment(ref: Ref, rows: seq<OrderId>) returns (r: Result<()>)
      requires Enumerates(rows, index, ref)
      modifies `orders, `ledger, `offers
      ensures Out(Tables(), r) == Serial(old(Tables()), 0, ref, rows, now)
      ensures r.Ok? <==>
              && ref != "" && rows != []
              && (|| (forall i :: 0 <= i < |rows| && rows[i] in old(orders) ==> !StillUnpaid(old(orders)[rows[i]]))
                  || (ref in charges && charges[ref] == SumTotals(old(orders), rows)))
      ensures r.Ok? ==>
              && AllConfirmed(old(orders), orders, rows, now)
              && AllCredited(old(orders), old(ledger), ledger, rows, ref, |rows| == 1)
              && AllRedeemed(old(orders), old(offers), offers, rows)
      ensures r.Err? ==>
              && orders == old(orders) && ledger == old(ledger) && offers == old(offers)
              && r.error == if ref != "" && rows == [] then NotFound else BadRequest
    {
      ghost var s := Tables();
      assert s.sessions == map[] && s.now == now && s.orders == orders && s.ledger == ledger && s.offers == offers;
      hide *;
      AwaitingAre(orders);
      SerialIs(s, ref, rows);
      PayAllWrites(s, ref, rows, |rows| == 1);
      if ref == "" { return Err(BadRequest); }
      if rows == [] { return Err(NotFound); }
      var allPaid, grandTotal := ReadTargets(rows);
      if allPaid { return Ok(()); }
      if ref !in charges || charges[ref] != grandTotal { return Err(BadRequest); }
      PayTargets(ref, rows, |rows| == 1);
      r := Ok(());
    }

    method MarkAbandonedOrders()
      modifies `orders
      ensures Tables() == Next(old(Tables()), MarkAbandoned).state
      ensures forall id :: id in orders <==> id in old(orders)
      ensures forall id :: id in orders ==>
                if old(orders)[id].status == AwaitingPayment && old(orders)[id].created + 10 * 60 < now
                then orders[id] == old(orders)[id].(status := Abandoned)
                else orders[id] == old(orders)[id]
    {
      orders := AbandonAll(orders, now);
    }

    // ----- Orders and escrow -----

    method ConfirmDelivery(id: OrderId, email: Email) returns (r: Result<()>)
      modifies `orders, `ledger
      ensures Out(Tables(), r) == ActOn(old(Tables()), id, Move.ConfirmDelivery(email))
      ensures r.Ok? <==>
              && id in old(orders) && old(orders)[id].email == email
              && (old(orders)[id].status == Shipped || old(orders)[id].status == ReadyForCollection)
      ensures r.Ok? ==>
              && orders == old(orders)[id := old(orders)[id].(status := Delivered, delivered := Some(now),
                                                              confirmed := Some(now),
                                                              reasons := old(orders)[id].reasons + {BuyerConfirmed})]
              && AllReleased(old(ledger), ledger, [id])
      ensures r.Err? ==>
              && orders == old(orders) && ledger == old(ledger)
              && r.error == if id in old(orders) && old(orders)[id].email == email then BadRequest else NotFound
    {
      if id !in orders { return Err(NotFound); }
      UpdatesAre(ledger, id);
      hide AllReleased, Voided, TakenBack;
      var o := orders[id];
      if o.email != email { SameRow(orders, id); return Err(NotFound); }
      if !o.status.Shipped? && !o.status.ReadyForCollection? { SameRow(orders, id); return Err(BadRequest); }
      orders := orders[id := o.(status := Delivered, delivered := Some(now), confirmed := Some(now),
                                reasons := o.reasons + {BuyerConfirmed})];
      ledger := Apply(ledger, id, Release);
      r := Ok(());
    }

    method ReportMissing(id: OrderId, email: Email) returns (r: Result<()>)
      modifies `orders
      ensures Out(Tables(), r) == ActOn(old(Tables()), id, Move.ReportMissing(email))
      ensures r.Ok? <==>
              && id in old(orders) && old(orders)[id].email == email
              && (old(orders)[id].status == Shipped || old(orders)[id].status == Delivered)
              && (old(orders)[id].dispute == Undisputed || old(orders)[id].dispute == Reported)
      ensures r.Ok? ==> orders == old(orders)[id := old(orders)[id].(dispute := Reported)]
      ensures r.Err? ==>
              && orders == old(orders)
              && r.error == if id in old(orders) && old(orders)[id].email == email then BadRequest else NotFound
    {
      if id !in orders { return Err(NotFound); }
      KeepChangesNothing(ledger, id);
      SameRow(orders, id);
      var o := orders[id];
      if o.email != email { return Err(NotFound); }
      if !o.status.Shipped? && !o.status.Delivered? { return Err(BadRequest); }
      if o.dispute.Reported? { return Ok(()); }
      if !o.dispute.Undisputed? { return Err(BadRequest); }
      orders := orders[id := o.(dispute := Reported)];
      r := Ok(());
    }

    method DisputeRefund(id: OrderId, paystackAgrees: bool) returns (r: Result<()>)
      modifies `orders, `ledger
      ensures Out(Tables(), r) == ActOn(old(Tables()), id, Move.DisputeRefund(paystackAgrees))
      ensures r.Ok? <==>
              && id in old(orders)
              && (|| old(orders)[id].dispute == Refunded
                  || (old(orders)[id].dispute == Reported && old(orders)[id].ref != "" && paystackAgrees))
      ensures if r.Ok? && old(orders)[id].dispute == Reported then
                && orders == old(orders)[id := old(orders)[id].(
                                            status := Cancelled, cancelReason := Some(NotReceived), dispute := Refunded,
                                            refunds := old(orders)[id].refunds + [old(orders)[id].total])]
                && TakenBack(old(ledger), ledger, id)
              else
                orders == old(orders) && ledger == old(ledger)
      ensures r.Err? ==>
                r.error == if id !in old(orders) then NotFound
                           else if old(orders)[id].dispute != Reported then BadRequest
                           else Internal
    {
      if id !in orders { return Err(NotFound); }
      UpdatesAre(ledger, id);
      hide AllReleased, Voided, TakenBack;
      SameRow(orders, id);
      var o := orders[id];
      if o.dispute.Refunded? { return Ok(()); }
      if !o.dispute.Reported? { return Err(BadRequest); }
      if o.ref == "" { return Err(Internal); }
      if !paystackAgrees { return Err(Internal); }
      orders := orders[id := o.(status := Cancelled, cancelReason := Some(NotReceived), dispute := Refunded,
                                refunds := o.refunds + [o.total])];
      ledger := Apply(ledger, id, VoidLive);
      r := Ok(());
    }

    method NoShowRefund(id: OrderId, paystackAgrees: bool) returns (r: Result<()>)
      modifies `orders, `ledger
      ensures Out(Tables(), r) == ActOn(old(Tables()), id, Move.NoShowRefund(paystackAgrees))
      ensures r.Ok? <==> id in old(orders) && (old(orders)[id].status == Cancelled
                                               || RefundsUndelivered(old(orders)[id], paystackAgrees))
      ensures if r.Ok? && old(orders)[id].status != Cancelled
              then CancelledFor(old(orders), orders, id, VendorNoShow) && Voided(old(ledger), ledger, [id])
              else orders == old(orders) && ledger == old(ledger)
      ensures r.Err? ==>
                r.error == if id !in old(orders) then NotFound
                           else if old(orders)[id].status == Shipped || old(orders)[id].status == Delivered
                           then BadRequest else Internal
    {
      r := CancelAndRefundOrder(id, paystackAgrees, VendorNoShow);
    }

    /** A vendor moves their own order. Cancelling writes the status first, so the refund that follows
        finds the order cancelled already and does nothing. */
    method UpdateOrderStatus(store: StoreId, id: OrderId, status: OrderStatus) returns (r: Result<()>)
      modifies `orders, `ledger
      ensures Out(Tables(), r) == VendorWritesStep(old(Tables()), id, store, status)
      ensures r.Ok? <==>
              && id in old(orders) && old(orders)[id].store == store
              && match status {
                   case Confirmed => true
                   case Cancelled => true
                   case ReadyForCollection => old(orders)[id].isPickup
                   case Shipped => !old(orders)[id].isPickup && DeliversItself(old(orders), id)
                   case _ => false
                 }
      ensures r.Ok? ==>
                orders == old(orders)[id := old(orders)[id].(
                                            status := status,
                                            dispatched := if (status == Shipped || status == ReadyForCollection)
                                                             && old(orders)[id].dispatched == None
                                                          then Some(now) else old(orders)[id].dispatched)]
      ensures ledger == old(ledger)
      ensures r.Err? ==>
              && orders == old(orders)
              && r.error == if id in old(orders) && old(orders)[id].store == store then BadRequest else NotFound
    {
      if id !in orders { return Err(NotFound); }
      UpdatesAre(ledger, id);
      hide AllReleased, Voided, TakenBack;
      CarrierIs(orders, id);
      SameRow(orders, id);
      var o := orders[id];
      if o.store != store { return Err(NotFound); }
      var carrier := FulfilmentOf(orders, id);
      hide FulfilmentOf, DeliversItself, Apply, HasHeld, CancelledFor, RefundsUndelivered;
      if !VendorMaySet(carrier, o.isPickup, status) { return Err(BadRequest); }
      o := o.(status := status);
      if (status.Shipped? || status.ReadyForCollection?) && o.dispatched.None? { o := o.(dispatched := Some(now)); }
      orders := orders[id := o];
      if status.Cancelled? { var refunded := CancelAndRefundOrder(id, true, VendorCancelled); }
      r := Ok(());
    }

    /** The shared path behind a no-show at dispatch and a vendor's cancellation. */
    method CancelAndRefundOrder(id: OrderId, paystackAgrees: bool, reason: CancelReason) returns (r: Result<()>)
      modifies `orders, `ledger
      ensures id in old(orders) ==>
                var done := CancelAndRefund(old(orders)[id], paystackAgrees, reason);
                && orders == old(orders)[id := done.order] && r == done.reply
                && ledger == Apply(old(ledger), id, done.fx)
      ensures r.Ok? <==> id in old(orders) && (old(orders)[id].status == Cancelled
                                               || RefundsUndelivered(old(orders)[id], paystackAgrees))
      ensures if r.Ok? && old(orders)[id].status != Cancelled
              then CancelledFor(old(orders), orders, id, reason) && Voided(old(ledger), ledger, [id])
              else orders == old(orders) && ledger == old(ledger)
      ensures r.Err? ==>
                r.error == if id !in old(orders) then NotFound
                           else if old(orders)[id].status == Shipped || old(orders)[id].status == Delivered
                           then BadRequest else Internal
    {
      if id !in orders { return Err(NotFound); }
      UpdatesAre(ledger, id);
      hide AllReleased, Voided, TakenBack, Apply;
      SameRow(orders, id);
      var o := orders[id];
      if o.status.Cancelled? { return Ok(()); }
      if o.status.Shipped? || o.status.Delivered? { return Err(BadRequest); }
      if o.ref == "" { return Err(Internal); }
      if !paystackAgrees { return Err(Internal); }
      orders := orders[id := o.(status := Cancelled, cancelReason := Some(reason), refunds := o.refunds + [o.total])];
      ledger := Apply(ledger, id, VoidHeld);
      r := Ok(());
    }

    /** One turn of the sweep's loop: the order is marked, then its credit released. */
    method ReleaseRow(id: OrderId)
      requires id in orders && orders[id].status.Shipped?
      modifies `orders, `ledger
      ensures orders == old(orders)[id := AutoDelivered(old(orders)[id], now)]
      ensures ledger == Apply(old(ledger), id, Release)
    {
      TwoWrites(orders, id, now);
      hide *;
      if orders[id].status.Shipped? {
        orders := orders[id := orders[id].(status := Delivered, delivered := Some(now), confirmed := Some(now))];
      }
      orders := orders[id := orders[id].(reasons := orders[id].reasons + {AutoReleased})];
      ledger := Apply(ledger, id, Release);
    }

    /** The sweep's loop. */
    method ReleaseRows(rows: seq<OrderId>)
      requires NoDuplicates(rows)
      requires forall i :: 0 <= i < |rows| ==> rows[i] in orders && orders[rows[i]].status.Shipped?
      modifies `orders, `ledger
      ensures AllDelivered(old(orders), orders, rows, now)
      ensures AllReleased(old(ledger), ledger, rows)
    {
      ghost var was, due := orders, ledger;
      NoneYet(was, due, now);
      assert rows[..0] == [];
      hide *;
      var i := 0;
      while i < |rows|
        invariant 0 <= i <= |rows|
        invariant AllDelivered(was, orders, rows[..i], now) && AllReleased(due, ledger, rows[..i])
      {
        var id := rows[i];
        FreshRow(rows, i);
        OneDelivered(was, orders, rows[..i], now, id);
        OneReleased(due, ledger, rows[..i], id);
        ReleaseRow(id);
        i := i + 1;
      }
      assert rows[..i] == rows;
    }

    /** Pays out every order the buyer never answered for: exactly the overdue ones, and
        nothing else changes. The machine's steps, run undisturbed, do the same. */
    method ReleaseOverdueEscrow(rows: seq<OrderId>)
      requires DueRows(orders, rows, now - ESCROW_WINDOW)
      modifies `orders, `ledger
      ensures forall id :: id in rows <==> id in old(orders) && LeftWaiting(old(orders)[id], now)
      ensures WaitingDelivered(old(orders), orders, now)
      ensures AllReleased(old(ledger), ledger, rows)
      ensures Tables() == Run(old(Tables()), SweepSteps(0, rows))
    {
      ghost var s := Tables();
      hide AllDelivered, AllReleased, WaitingDelivered, DueRows, Overdue, NoDuplicates, LeftWaiting, Run, SweepSteps;
      OverdueAre(orders, rows, now);
      DueAre(orders, rows, now - ESCROW_WINDOW);
      ReleaseRows(rows);
      SweepDoes(s, 0, rows, orders, ledger);
      DeliveredAre(s.orders, orders, rows, now);
    }

    // ----- Wallet -----

    /** Balance, earned and held are the three sums over the store's rows. */
    method GetWallet(store: StoreId) returns (balance: int, earned: int, held: int)
      ensures balance == Total(Balance(store), ledger)
      ensures earned == Total(Earned(store), ledger)
      ensures held == Total(HeldBy(store), ledger)
    {
      balance, earned, held := 0, 0, 0;
      var i := 0;
      while i < |ledger|
        invariant 0 <= i <= |ledger|
        invariant balance + Total(Balance(store), ledger[i..]) == Total(Balance(store), ledger)
        invariant earned + Total(Earned(store), ledger[i..]) == Total(Earned(store), ledger)
        invariant held + Total(HeldBy(store), ledger[i..]) == Total(HeldBy(store), ledger)
      {
        var e := ledger[i];
        assert ledger[i..][0] == e && ledger[i..][1..] == ledger[i + 1..];
        if e.store == store && e.status.Completed? {
          if e.kind.Credit? {
            balance, earned := balance + e.amount, earned + e.amount;
          } else {
            balance := balance - e.amount;
          }
        }
        if e.store == store && e.status.Held? && e.kind.Credit? {
          held := held + e.amount;
        }
        i := i + 1;
      }
    }

    method Withdraw(store: StoreId, amount: int, token: string) returns (r: Result<()>)
      modifies `ledger
      ensures Out(Tables(), r) == WithdrawStep(old(Tables()), store, amount, token)
      ensures r.Ok? <==> 100 <= amount <= Total(Balance(store), old(ledger)) && !Recorded(old(ledger), "WD_" + token)
      ensures if r.Ok? then Recorded(ledger, "WD_" + token) && Rises(old(ledger), ledger, store, -amount, 0)
              else ledger == old(ledger)
      ensures r.Ok? ==> 0 <= Total(Balance(store), ledger) == Total(Balance(store), old(ledger)) - amount
    {
      if amount < 100 { return Err(BadRequest); }
      var balance, earned, held := GetWallet(store);
      assert Taken(ledger, "WD_" + token) <==> Recorded(ledger, "WD_" + token);
      if amount > balance { return Err(BadRequest); }
      if Taken(ledger, "WD_" + token) { return Err(Internal); }
      var e := Entry(store, Debit, amount, "WD_" + token, None, Completed, false);
      RowAdded(ledger, e);
      ledger := ledger + [e];
      assert ledger[|ledger| - 1].reference == "WD_" + token;
      r := Ok(());
    }

    /** The payment provider's webhook: a checkout payment is confirmed and its failure swallowed,
        a bank transfer is credited once per reference. */
    method HandlePaystackWebhook(success: bool, bankTransfer: bool, ref: Ref, amount: int, store: Option<StoreId>,
                                 rows: seq<OrderId>)
      requires Enumerates(rows, index, ref)
      modifies `orders, `ledger, `offers
      ensures !success ==> Tables() == old(Tables())
      ensures success && !bankTransfer ==> Tables() == Serial(old(Tables()), 0, ref, rows, now).state
      ensures success && bankTransfer && store.Some? ==>
                Tables() == DepositStep(old(Tables()), store.value, amount, ref).state
      ensures success && bankTransfer ==> orders == old(orders) && offers == old(offers)
      ensures success && bankTransfer ==>
                if store.Some? && ref != "" && amount > 0 && !Recorded(old(ledger), ref)
                then Recorded(ledger, ref) && Rises(old(ledger), ledger, store.value, amount, amount)
                else ledger == old(ledger)
    {
      if !success { return; }
      if !bankTransfer {
        if ref == "" { return; }
        var r := ConfirmPayment(ref, rows);
        return;
      }
      if store.None? || ref == "" || amount <= 0 { return; }
      var e := Entry(store.value, Credit, amount, ref, None, Completed, false);
      RowAdded(ledger, e);
      ledger := Insert(ledger, e);
      assert !Taken(old(ledger), ref) ==> ledger[|ledger| - 1].reference == ref;
    }
  }

  /** A call alone: the checks in their order, then the loop. */
  lemma SerialIs(s: State, ref: Ref, rows: seq<OrderId>)
    requires s.sessions == map[] && Enumerates(rows, s.index, ref)
    ensures var settled := forall i :: 0 <= i < |rows| ==> !AwaitsPayment(s.orders, rows[i]);
            && (settled ==> PayAll(s, ref, rows, |rows| == 1) == s)
            && Serial(s, 0, ref, rows, s.now) ==
               if ref == "" then Out(s, Err(BadRequest))
               else if rows == [] then Out(s, Err(NotFound))
               else if settled then Out(s, Ok(()))
               else if ref !in s.charges || s.charges[ref] != SumTotals(s.orders, rows) then Out(s, Err(BadRequest))
               else Out(PayAll(s, ref, rows, |rows| == 1), Ok(()))
  {
    hide PayAll, SumTotals, AwaitsPayment, RowsOf;
    if forall i :: 0 <= i < |rows| ==> !AwaitsPayment(s.orders, rows[i]) {
      PayAllNothing(s, ref, rows, |rows| == 1);
    }
    assert s.(now := s.now) == s;
    assert Close(WithSession(s, 0, Confirming(ref, rows, |rows| == 1)), 0) == s;
  }

  lemma AwaitingIsThere(orders: map<OrderId, Order>, id: OrderId)
    requires AwaitsPayment(orders, id)
    ensures id in orders
  {
  }

  lemma SameRow(orders: map<OrderId, Order>, id: OrderId)
    requires id in orders
    ensures orders[id := orders[id]] == orders
  {
  }

  // ---------- Running things twice ----------

  /** The webhook delivered again changes nothing. */
  lemma DepositTwice(s: State, store: StoreId, amount: int, reference: string)
    ensures var once := DepositStep(s, store, amount, reference).state;
            DepositStep(once, store, amount, reference).state == once
  {
    var e := Entry(store, Credit, amount, reference, None, Completed, false);
    if !Taken(s.ledger, reference) {
      assert (s.ledger + [e])[|s.ledger|].reference == reference;
    }
  }
}
