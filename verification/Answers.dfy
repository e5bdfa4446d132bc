/** When a haggling move is taken, and what it leaves, column by column: declared here without the
    functions that compute it, and proved to be what they compute. */
module Answers {
  import opened Base
  import opened Negotiation
  import opened Market

  // ---------- The conditions ----------

  /** The vendor answers an open offer on their own product inside its window: they take or counter
      the buyer's offer while it is theirs to answer, and decline at any time. */
  ghost predicate VendorMay(o: Offer, now: int, store: StoreId, answer: Answer) {
    && o.store == store && now <= o.expires
    && match answer
       case Accept => o.status == Pending
       case Counter(amount) => o.status == Pending && o.offer < amount < o.list
       case Decline => o.status == Pending || o.status == Countered
       case Withdraw => false
  }

  /** The buyer answers a counter inside its window, at most twice with a higher offer of their
      own below it, and withdraws at any time. */
  ghost predicate BuyerMay(o: Offer, now: int, answer: Answer) {
    && now <= o.expires
    && match answer
       case Accept => o.status == Countered && o.counter.Some?
       case Decline => o.status == Countered
       case Counter(amount) =>
         o.status == Countered && o.counter.Some? && o.offer < amount < o.counter.value && o.buyerOffers < 3
       case Withdraw => o.status == Pending || o.status == Countered
  }

  /** An offer of at least half the price, and below it, on a product that is listed and open to
      haggling. */
  ghost predicate OpeningMay(product: Option<Product>, amount: int) {
    && product.Some? && product.value.published && product.value.negotiable
    && product.value.price <= 2 * amount && amount < product.value.price
  }

  /** At or above the vendor's floor an offer is a deal at once. */
  ghost predicate AtFloor(product: Option<Product>, amount: int) {
    product.Some? && product.value.floor.Some? && product.value.floor.value <= amount
  }

  // ---------- The rows afterwards ----------

  /** The vendor's acceptance is a deal at the buyer's last offer, with 48 hours to buy. */
  ghost predicate VendorLeft(o: Offer, after: Offer, now: int, answer: Answer) {
    match answer
    case Accept =>
      after == o.(status := Accepted, agreed := Some(o.offer), expires := now + 48 * 3600,
                  log := o.log + [Event(Vendor, Accepts, Some(o.offer), None)])
    case Counter(amount) =>
      after == o.(status := Countered, counter := Some(amount), expires := now + 48 * 3600,
                  log := o.log + [Event(Vendor, Counters, Some(amount), None)])
    case Decline => after == o.(status := Declined, log := o.log + [Event(Vendor, Declines, None, None)])
    case Withdraw => false
  }

  /** The buyer's acceptance is a deal at the vendor's counter. A higher offer is a deal at once if
      it reaches the floor of that moment; else it is the vendor's turn again. */
  ghost predicate BuyerLeft(o: Offer, after: Offer, now: int, answer: Answer, product: Option<Product>) {
    match answer
    case Accept =>
      after == o.(status := Accepted, agreed := o.counter, expires := now + 48 * 3600,
                  log := o.log + [Event(Buyer, Accepts, o.counter, None)])
    case Decline => after == o.(status := Declined, log := o.log + [Event(Buyer, Declines, None, None)])
    case Counter(amount) =>
      var raised := o.(offer := amount, buyerOffers := o.buyerOffers + 1, expires := now + 48 * 3600);
      if AtFloor(product, amount) then
        after == raised.(status := Accepted, agreed := Some(amount), auto := true,
                         log := o.log + [Event(Buyer, Offers, Some(amount), None),
                                         Event(System, Accepts, Some(amount), product.value.floor)])
      else
        after == raised.(status := Pending, agreed := None, auto := false,
                         log := o.log + [Event(Buyer, Offers, Some(amount), None)])
    case Withdraw => after == o.(status := Withdrawn, log := o.log + [Event(Buyer, Withdraws, None, None)])
  }

  ghost predicate OpeningLeft(p: Product, id: ProductId, email: Email, amount: int, quantity: int, now: int,
                              row: Offer) {
    && row.store == p.store && row.product == id && row.email == email && row.list == p.price
    && row.offer == amount && row.counter == None && row.quantity == (if quantity == 0 then 1 else quantity)
    && row.buyerOffers == 1 && row.created == now && row.expires == now + 48 * 3600 && row.redeemedBy == None
    && if AtFloor(Some(p), amount) then
         && row.status == Accepted && row.agreed == Some(amount) && row.auto
         && row.log == [Event(Buyer, Offers, Some(amount), None), Event(System, Accepts, Some(amount), p.floor)]
       else
         && row.status == Pending && row.agreed == None && !row.auto
         && row.log == [Event(Buyer, Offers, Some(amount), None)]
  }

  // ---------- Taken exactly then ----------

  lemma VendorAnswered(o: Offer, now: int, store: StoreId, answer: Answer)
    ensures var r := VendorMove(o, now, store, answer);
            && (r.Ok? <==> VendorMay(o, now, store, answer))
            && (r.Ok? ==> VendorLeft(o, r.value, now, answer))
            && (r.Ok? && Turns(o) && answer.Decline? ==> r.value.agreed.None?)
            && (r.Err? ==> r.error == if o.store != store then NotFound else BadRequest)
  {
  }

  lemma BuyerAnswered(o: Offer, now: int, answer: Answer, product: Option<Product>)
    ensures var r := BuyerMove(o, now, answer, product);
            && (r.Ok? <==> BuyerMay(o, now, answer) && (answer.Counter? ==> product.Some?))
            && (r.Ok? ==> BuyerLeft(o, r.value, now, answer, product))
            && (r.Err? ==> r.error == if BuyerMay(o, now, answer) then NotFound else BadRequest)
  {
  }

  /** Haggling is never stuck: inside its window an open offer can be accepted by exactly one side,
      at the last amount named. */
  lemma SomeoneCanAccept(o: Offer, now: int, product: Option<Product>)
    requires Sound(o) && (o.status == Pending || o.status == Countered) && now <= o.expires
    ensures VendorMove(o, now, o.store, Accept).Ok? <==> BuyerMove(o, now, Accept, product).Err?
    ensures var vendors, buyers := VendorMove(o, now, o.store, Accept), BuyerMove(o, now, Accept, product);
            var after := if vendors.Ok? then vendors.value else buyers.value;
            after.agreed.Some? && after.agreed == o.log[|o.log| - 1].amount
  {
    hide Rising, Consented, Bounded, Bracket;
    VendorAnswered(o, now, o.store, Accept);
    BuyerAnswered(o, now, Accept, product);
  }

  /** A reader sees a row as expired exactly when its window has closed on it. */
  lemma ShownExactly(o: Offer, now: int)
    ensures var closes := o.status == Pending || o.status == Countered || o.status == Accepted;
            Shown(o, now) == if closes && now > o.expires then Expired else o.status
  {
  }

  lemma OpeningAnswered(product: Option<Product>, id: ProductId, email: Email, amount: int, quantity: int, now: int)
    ensures Screen(product, amount).Ok? <==> OpeningMay(product, amount)
    ensures Screen(product, amount).Ok? ==>
              OpeningLeft(product.value, id, email, amount, quantity, now,
                          Opening(product.value, id, email, amount, quantity, now))
  {
  }

  // ---------- The same of the machine's steps ----------

  /** A buyer moves only their own offer, by their link or by their email; nothing but its row
      changes, and a refused move changes nothing. */
  lemma BuyerStepExact(s: State, id: OfferId, who: Option<Email>, answer: Answer)
    ensures var out := BuyerMoveStep(s, id, who, answer);
            var theirs := id in s.offers && (who.Some? ==> who.value == s.offers[id].email);
            && (out.reply.Ok? <==>
                 theirs && BuyerMay(s.offers[id], s.now, answer)
                 && (answer.Counter? ==> s.offers[id].product in s.products))
            && (out.reply.Ok? ==>
                  && id in out.state.offers && out.state.offers == s.offers[id := out.state.offers[id]]
                  && BuyerLeft(s.offers[id], out.state.offers[id], s.now, answer,
                               Lookup(s.products, s.offers[id].product)))
            && (out.reply.Err? ==>
                  && out.state == s
                  && out.reply.error ==
                     if theirs && !BuyerMay(s.offers[id], s.now, answer) then BadRequest else NotFound)
  {
    if id in s.offers {
      BuyerAnswered(s.offers[id], s.now, answer, Lookup(s.products, s.offers[id].product));
      hide BuyerMove, BuyerMay, BuyerLeft;
    }
  }

  /** The same for a vendor and the offers on their store's products. */
  lemma VendorStepExact(s: State, id: OfferId, store: StoreId, answer: Answer)
    ensures var out := VendorMoveStep(s, id, store, answer);
            && (out.reply.Ok? <==> id in s.offers && VendorMay(s.offers[id], s.now, store, answer))
            && (out.reply.Ok? ==>
                  && id in out.state.offers && out.state.offers == s.offers[id := out.state.offers[id]]
                  && VendorLeft(s.offers[id], out.state.offers[id], s.now, answer))
            && (out.reply.Err? ==>
                  && out.state == s
                  && out.reply.error == if id in s.offers && s.offers[id].store == store then BadRequest else NotFound)
  {
    if id in s.offers {
      VendorAnswered(s.offers[id], s.now, store, answer);
      hide VendorMove, VendorMay, VendorLeft;
    }
  }
}
