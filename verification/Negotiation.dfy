/** One price negotiation: the row, its conversation, and every move that changes it. */
module Negotiation {
  import opened Base

  // All times are seconds.
  const OFFER_WINDOW := 48 * 3600
  const MAX_BUYER_OFFERS := 3
  const MIN_OFFER_SHARE := 0.5

  datatype Product = Product(store: StoreId, price: int, negotiable: bool, published: bool, floor: Option<int>)

  datatype OfferStatus = Pending | Countered | Accepted | Declined | Expired | Withdrawn | Redeemed

  datatype Actor = Buyer | Vendor | System

  datatype Deed = Offers | Counters | Accepts | Declines | Withdraws | Expires | Redeems

  /** One line of the conversation. `floor` is a history variable: the vendor's
      floor at the moment of an instant acceptance. It is not stored by the system. */
  datatype Event = Event(actor: Actor, deed: Deed, amount: Option<int>, floor: Option<int>)

  datatype Offer = Offer(
    store: StoreId, product: ProductId, email: Email, list: int,
    offer: int, counter: Option<int>, agreed: Option<int>, quantity: int,
    status: OfferStatus, auto: bool, buyerOffers: int,
    expires: int, created: int, redeemedBy: Option<OrderId>, log: seq<Event>)

  datatype Answer = Accept | Decline | Counter(amount: int) | Withdraw

  // ---------- Pure tests ----------

  predicate Open(o: Offer) {
    o.status.Pending? || o.status.Countered?
  }

  predicate Lapsed(o: Offer, now: int) {
    (Open(o) || o.status.Accepted?) && now > o.expires
  }

  /** The status a reader is shown: a lapsed row reads as expired before any sweep. */
  function Shown(o: Offer, now: int): OfferStatus {
    if Lapsed(o, now) then Expired else o.status
  }

  predicate ClearsFloor(p: Product, amount: int) {
    p.floor.Some? && amount >= p.floor.value
  }

  // ---------- Moves ----------

  function Logged(o: Offer, e: Event): Offer {
    o.(log := o.log + [e])
  }

  function Settle(o: Offer, status: OfferStatus, agreed: Option<int>, now: int): Offer {
    o.(status := status,
       agreed := if agreed.Some? then agreed else o.agreed,
       expires := if status.Accepted? then now + OFFER_WINDOW else o.expires)
  }

  /** The checks CreateOffer makes on the product and the amount alone. */
  function Screen(product: Option<Product>, amount: int): Result<Product> {
    if product.None? || !product.value.published then Err(NotFound)
    else if !product.value.negotiable then Err(BadRequest)
    else if amount >= product.value.price then Err(BadRequest)
    else if (amount as real) < (product.value.price as real) * MIN_OFFER_SHARE then Err(BadRequest)
    else Ok(product.value)
  }

  /** The row and conversation that a screened opening offer inserts. */
  function Opening(p: Product, id: ProductId, email: Email, amount: int, quantity: int, now: int): Offer {
    var instant := ClearsFloor(p, amount);
    var first := Offer(
                    p.store, id, email, p.price, amount, None, if instant then Some(amount) else None,
                    if quantity == 0 then 1 else quantity, if instant then Accepted else Pending,
                    instant, 1, now + OFFER_WINDOW, now, None, [Event(Buyer, Offers, Some(amount), None)]);
    if instant then Logged(first, Event(System, Accepts, Some(amount), p.floor)) else first
  }

  function BuyerMove(o: Offer, now: int, answer: Answer, product: Option<Product>): Result<Offer> {
    if Lapsed(o, now) then Err(BadRequest)
    else
      match answer
      case Accept =>
        if !o.status.Countered? || o.counter.None? then Err(BadRequest)
        else Ok(Logged(Settle(o, Accepted, o.counter, now), Event(Buyer, Accepts, o.counter, None)))
      case Decline =>
        if !o.status.Countered? then Err(BadRequest)
        else Ok(Logged(Settle(o, Declined, None, now), Event(Buyer, Declines, None, None)))
      case Counter(amount) =>
        if !o.status.Countered? || o.counter.None? then Err(BadRequest)
        else if o.buyerOffers >= MAX_BUYER_OFFERS then Err(BadRequest)
        else if amount <= o.offer || amount >= o.counter.value then Err(BadRequest)
        else if product.None? then Err(NotFound)
        else
          var instant := ClearsFloor(product.value, amount);
          var raised := Logged(
                          o.(offer := amount, buyerOffers := o.buyerOffers + 1,
                          status := if instant then Accepted else Pending,
                          agreed := if instant then Some(amount) else None,
                          auto := instant, expires := now + OFFER_WINDOW),
                          Event(Buyer, Offers, Some(amount), None));
          Ok(if instant then Logged(raised, Event(System, Accepts, Some(amount), product.value.floor)) else raised)
      case Withdraw =>
        if !Open(o) then Err(BadRequest)
        else Ok(Logged(Settle(o, Withdrawn, None, now), Event(Buyer, Withdraws, None, None)))
  }

  function VendorMove(o: Offer, now: int, store: StoreId, answer: Answer): Result<Offer> {
    if o.store != store then Err(NotFound)
    else if Lapsed(o, now) then Err(BadRequest)
    else
      match answer
      case Accept =>
        if !o.status.Pending? then Err(BadRequest)
        else Ok(Logged(Settle(o, Accepted, Some(o.offer), now), Event(Vendor, Accepts, Some(o.offer), None)))
      case Counter(amount) =>
        if !o.status.Pending? then Err(BadRequest)
        else if amount <= o.offer || amount >= o.list then Err(BadRequest)
        else Ok(Logged(o.(counter := Some(amount), status := Countered, expires := now + OFFER_WINDOW),
                       Event(Vendor, Counters, Some(amount), None)))
      case Decline =>
        if !Open(o) then Err(BadRequest)
        else Ok(Logged(Settle(o, Declined, None, now), Event(Vendor, Declines, None, None)))
      case Withdraw => Err(BadRequest)
  }

  /** What one run of the expiry sweep does to one row. */
  function ExpireRow(o: Offer, now: int): Offer {
    if Lapsed(o, now) then Logged(o.(status := Expired), Event(System, Expires, None, None)) else o
  }

  /** What paying for an order does to a deal one of its lines names. */
  function RedeemRow(o: Offer, order: OrderId): Offer {
    if o.status.Accepted? || o.status.Expired?
    then Logged(o.(status := Redeemed, redeemedBy := Some(order)), Event(System, Redeems, o.agreed, None))
    else o
  }

  // ---------- What every negotiation keeps ----------

  /** The prices stand in order, a recorded counter included even when it is stale. */
  ghost predicate Bracket(o: Offer) {
    && o.list <= 2 * o.offer && o.offer < o.list
    && (o.counter.Some? ==> o.offer < o.counter.value < o.list)
    && (o.agreed.Some? ==> o.list <= 2 * o.agreed.value && o.agreed.value < o.list)
  }

  /** The buyer's successive offers, oldest first. */
  function Asked(log: seq<Event>): seq<int> {
    if log == [] then []
    else
      var e := log[|log| - 1];
      Asked(log[..|log| - 1]) +
      (if e.actor.Buyer? && e.deed.Offers? && e.amount.Some? then [e.amount.value] else [])
  }

  ghost predicate Increasing(xs: seq<int>) {
    forall i, j :: 0 <= i < j < |xs| ==> xs[i] < xs[j]
  }

  /** Event `i` strikes a deal at `a`, and the event before it shows the vendor's side of
      it: a floor at or below the offer, the vendor's own acceptance, or the vendor's counter. */
  ghost predicate Struck(log: seq<Event>, i: int, a: int) {
    && 0 < i < |log|
    && (|| (log[i].actor.System? && log[i].deed.Accepts? && log[i].amount == Some(a)
            && log[i].floor.Some? && log[i].floor.value <= a
            && log[i - 1] == Event(Buyer, Offers, Some(a), None))
        || (log[i] == Event(Vendor, Accepts, Some(a), None)
            && log[i - 1] == Event(Buyer, Offers, Some(a), None))
        || (log[i] == Event(Buyer, Accepts, Some(a), None)
            && log[i - 1] == Event(Vendor, Counters, Some(a), None)))
  }

  ghost predicate Consented(o: Offer) {
    o.agreed.Some? ==> exists i :: Struck(o.log, i, o.agreed.value)
  }

  /** How long the conversation can be, by status and by offers made. */
  ghost predicate Bounded(o: Offer) {
    && 1 <= o.buyerOffers <= MAX_BUYER_OFFERS
    && |o.log| <=
       match o.status {
         case Pending => 2 * o.buyerOffers - 1
         case Countered => 2 * o.buyerOffers
         case Accepted => 2 * o.buyerOffers + 1
         case Declined => 2 * o.buyerOffers + 1
         case Withdrawn => 2 * o.buyerOffers + 1
         case Expired => 2 * o.buyerOffers + 2
         case Redeemed => 2 * o.buyerOffers + 3
       }
  }

  /** Status, prices and the last word of the conversation agree. */
  ghost predicate Turns(o: Offer) {
    && |o.log| > 0
    && (o.status.Pending? ==> o.log[|o.log| - 1] == Event(Buyer, Offers, Some(o.offer), None))
    && (o.status.Countered? ==> o.counter.Some? && o.log[|o.log| - 1] == Event(Vendor, Counters, o.counter, None))
    && (Open(o) || o.status.Declined? || o.status.Withdrawn? ==> o.agreed.None?)
    && (o.status.Accepted? || o.status.Redeemed? ==> o.agreed.Some?)
    && (o.status.Redeemed? <==> o.redeemedBy.Some?)
  }

  ghost predicate Rising(o: Offer) {
    && Increasing(Asked(o.log))
    && |Asked(o.log)| == o.buyerOffers
    && (o.buyerOffers > 0 ==> Asked(o.log)[|Asked(o.log)| - 1] == o.offer)
  }

  ghost predicate Sound(o: Offer) {
    Bracket(o) && Turns(o) && Rising(o) && Consented(o) && Bounded(o)
  }

  // ---------- What no move undoes ----------

  /** `after` is a later state of the negotiation `before`. */
  ghost predicate Follows(before: Offer, after: Offer) {
    && after.store == before.store && after.product == before.product && after.email == before.email
    && after.list == before.list && after.quantity == before.quantity && after.created == before.created
    && (!Open(before) || before.agreed.Some? ==> after.agreed == before.agreed)
    && (before.redeemedBy.Some? ==> after.redeemedBy == before.redeemedBy)
    && before.log <= after.log
    && (!Open(before) && after.status != before.status ==>
          || (before.status.Accepted? && (after.status.Expired? || after.status.Redeemed?))
          || (before.status.Expired? && before.agreed.Some? && after.status.Redeemed?))
  }

  lemma FollowsTransitive(a: Offer, b: Offer, c: Offer)
    requires Follows(a, b) && Follows(b, c)
    requires Turns(a) && Turns(b)
    ensures Follows(a, c)
  {
    assert a.log <= c.log;
  }

  // ---------- Proofs, one move at a time ----------

  lemma AskedAppend(log: seq<Event>, e: Event)
    ensures Asked(log + [e]) ==
            Asked(log) + (if e.actor.Buyer? && e.deed.Offers? && e.amount.Some? then [e.amount.value] else [])
  {
    assert (log + [e])[..|log|] == log;
  }

  lemma OneMoreAsked(xs: seq<int>, x: int)
    requires Increasing(xs) && (xs != [] ==> xs[|xs| - 1] < x)
    ensures Increasing(xs + [x])
  {
  }

  lemma OpeningSound(p: Product, id: ProductId, email: Email, amount: int, quantity: int, now: int)
    requires Screen(Some(p), amount).Ok?
    ensures Sound(Opening(p, id, email, amount, quantity, now))
  {
    var first := Event(Buyer, Offers, Some(amount), None);
    var accept := Event(System, Accepts, Some(amount), p.floor);
    var log := [first, accept];
    OneMoreAsked([], amount);
    AskedAppend([], first);
    AskedAppend([first], accept);
    assert [] + [first] == [first] && [first] + [accept] == log && [] + [amount] == [amount];
    assert Asked([]) == [];
    assert p.floor.Some? && amount >= p.floor.value ==> Struck(log, 1, amount);
    hide Increasing, Asked, Struck;
    var o := Opening(p, id, email, amount, quantity, now);
    assert o.log == if ClearsFloor(p, amount) then log else [first];
    assert Rising(o);
    assert Bracket(o) && Turns(o) && Consented(o) && Bounded(o);
  }

  lemma BuyerCounterRises(o: Offer, now: int, answer: Answer, product: Option<Product>)
    requires Sound(o) && answer.Counter? && BuyerMove(o, now, answer, product).Ok?
    ensures Rising(BuyerMove(o, now, answer, product).value)
  {
    var e := Event(Buyer, Offers, Some(answer.amount), None);
    AskedAppend(o.log, e);
    AskedAppend(o.log + [e], Event(System, Accepts, Some(answer.amount), product.value.floor));
    OneMoreAsked(Asked(o.log), answer.amount);
    hide Increasing, Asked;
  }

  lemma BuyerCounterConsents(o: Offer, now: int, answer: Answer, product: Option<Product>)
    requires Sound(o) && answer.Counter? && BuyerMove(o, now, answer, product).Ok?
    ensures Consented(BuyerMove(o, now, answer, product).value)
  {
    hide Rising;
    var after := BuyerMove(o, now, answer, product).value;
    if after.status.Accepted? {
      assert Struck(after.log, |o.log| + 1, answer.amount);
    }
  }

  lemma BuyerCounterSound(o: Offer, now: int, answer: Answer, product: Option<Product>)
    requires Sound(o) && answer.Counter? && BuyerMove(o, now, answer, product).Ok?
    ensures Sound(BuyerMove(o, now, answer, product).value)
    ensures Follows(o, BuyerMove(o, now, answer, product).value)
  {
    BuyerCounterRises(o, now, answer, product);
    BuyerCounterConsents(o, now, answer, product);
    hide Rising, Consented;
  }

  lemma AppendRises(o: Offer, after: Offer, e: Event)
    requires Rising(o) && after.log == o.log + [e] && !(e.actor.Buyer? && e.deed.Offers?)
    requires after.offer == o.offer && after.buyerOffers == o.buyerOffers
    ensures Rising(after)
  {
    AskedAppend(o.log, e);
    assert Asked(after.log) == Asked(o.log);
    hide Asked, Increasing;
  }

  lemma AppendConsents(o: Offer, after: Offer, e: Event)
    requires Consented(o) && after.log == o.log + [e]
    requires after.agreed == o.agreed || (after.agreed.Some? && Struck(after.log, |o.log|, after.agreed.value))
    ensures Consented(after)
  {
    if after.agreed == o.agreed && o.agreed.Some? {
      var i :| Struck(o.log, i, o.agreed.value);
      assert Struck(after.log, i, o.agreed.value);
    }
  }

  lemma BuyerMoveSound(o: Offer, now: int, answer: Answer, product: Option<Product>)
    requires Sound(o) && BuyerMove(o, now, answer, product).Ok?
    ensures Sound(BuyerMove(o, now, answer, product).value)
    ensures Follows(o, BuyerMove(o, now, answer, product).value)
  {
    if answer.Counter? {
      BuyerCounterSound(o, now, answer, product);
    } else {
      var after := BuyerMove(o, now, answer, product).value;
      hide Asked, Increasing;
      AppendRises(o, after, after.log[|o.log|]);
      AppendConsents(o, after, after.log[|o.log|]);
      hide Rising, Consented;
    }
  }

  lemma VendorMoveSound(o: Offer, now: int, store: StoreId, answer: Answer)
    requires Sound(o) && VendorMove(o, now, store, answer).Ok?
    ensures Sound(VendorMove(o, now, store, answer).value)
    ensures Follows(o, VendorMove(o, now, store, answer).value)
  {
    var after := VendorMove(o, now, store, answer).value;
    hide Asked, Increasing;
    AppendRises(o, after, after.log[|o.log|]);
    AppendConsents(o, after, after.log[|o.log|]);
    hide Rising, Consented;
  }

  lemma ExpireSound(o: Offer, now: int)
    requires Sound(o)
    ensures Sound(ExpireRow(o, now)) && Follows(o, ExpireRow(o, now))
  {
    if Lapsed(o, now) {
      AppendRises(o, ExpireRow(o, now), Event(System, Expires, None, None));
      AppendConsents(o, ExpireRow(o, now), Event(System, Expires, None, None));
    }
    hide Rising, Consented;
  }

  lemma RedeemSound(o: Offer, order: OrderId)
    requires Sound(o) && o.agreed.Some?
    ensures Sound(RedeemRow(o, order)) && Follows(o, RedeemRow(o, order))
  {
    if o.status.Accepted? || o.status.Expired? {
      AppendRises(o, RedeemRow(o, order), Event(System, Redeems, o.agreed, None));
      AppendConsents(o, RedeemRow(o, order), Event(System, Redeems, o.agreed, None));
    }
    hide Rising, Consented;
  }

  // ---------- Whole negotiations ----------

  datatype Turn =
    | BuyerSays(at: int, answer: Answer, product: Option<Product>)
    | VendorSays(at: int, store: StoreId, answer: Answer)
    | SweepAt(at: int)
    | PaidFor(order: OrderId)

  /** A refused move leaves the row alone. A payment reaches only rows that carry a deal:
      an order line can name no other (DealIntegrity shows it). */
  function Take(o: Offer, t: Turn): Offer {
    match t
    case BuyerSays(at, answer, product) =>
      (match BuyerMove(o, at, answer, product) case Ok(after) => after case Err(_) => o)
    case VendorSays(at, store, answer) =>
      (match VendorMove(o, at, store, answer) case Ok(after) => after case Err(_) => o)
    case SweepAt(at) => ExpireRow(o, at)
    case PaidFor(order) => if o.agreed.Some? then RedeemRow(o, order) else o
  }

  function Play(o: Offer, turns: seq<Turn>): Offer
    decreases |turns|
  {
    if turns == [] then o else Play(Take(o, turns[0]), turns[1..])
  }

  /** Every negotiation, however it is played, stays within its price bracket, keeps the
      vendor's consent to its price, and never alters what was settled. */
  lemma {:induction false} EveryNegotiation(o: Offer, turns: seq<Turn>)
    requires Sound(o)
    ensures Sound(Play(o, turns)) && Follows(o, Play(o, turns))
    decreases |turns|
  {
    if turns != [] {
      var next := Take(o, turns[0]);
      match turns[0] {
        case BuyerSays(at, answer, product) =>
          if BuyerMove(o, at, answer, product).Ok? { BuyerMoveSound(o, at, answer, product); }
        case VendorSays(at, store, answer) =>
          if VendorMove(o, at, store, answer).Ok? { VendorMoveSound(o, at, store, answer); }
        case SweepAt(at) => ExpireSound(o, at);
        case PaidFor(order) => if o.agreed.Some? { RedeemSound(o, order); }
      }
      assert Sound(next) && Follows(o, next);
      EveryNegotiation(next, turns[1..]);
      FollowsTransitive(o, next, Play(next, turns[1..]));
    }
  }

  /** Moves left before the haggling has to end: two for each offer the buyer still has, and
      one more when the vendor has the turn. */
  function Patience(o: Offer): int {
    2 * (MAX_BUYER_OFFERS - o.buyerOffers) + (if o.status.Pending? then 1 else 0)
  }

  lemma BuyerMoveWearsPatience(o: Offer, now: int, answer: Answer, product: Option<Product>)
    requires Sound(o)
    ensures var r := BuyerMove(o, now, answer, product);
            r.Ok? && Open(r.value) ==> 0 <= Patience(r.value) < Patience(o)
  {
  }

  lemma VendorMoveWearsPatience(o: Offer, now: int, store: StoreId, answer: Answer)
    requires Sound(o)
    ensures var r := VendorMove(o, now, store, answer);
            r.Ok? && Open(r.value) ==> 0 <= Patience(r.value) < Patience(o)
  {
  }

  /** The two sides of a negotiation speak at most nine times, whatever is played. */
  lemma AtMostNineEvents(p: Product, id: ProductId, email: Email, amount: int, quantity: int, now: int,
                         turns: seq<Turn>)
    requires Screen(Some(p), amount).Ok?
    ensures var o := Play(Opening(p, id, email, amount, quantity, now), turns);
            |o.log| <= 9 && |Asked(o.log)| <= 3 && Increasing(Asked(o.log))
  {
    OpeningSound(p, id, email, amount, quantity, now);
    EveryNegotiation(Opening(p, id, email, amount, quantity, now), turns);
  }

  lemma {:induction false} PlayAppend(o: Offer, xs: seq<Turn>, ys: seq<Turn>)
    ensures Play(o, xs + ys) == Play(Play(o, xs), ys)
    decreases |xs|
  {
    if xs == [] {
      assert xs + ys == ys;
    } else {
      assert (xs + ys)[1..] == xs[1..] + ys;
      PlayAppend(Take(o, xs[0]), xs[1..], ys);
    }
  }

  lemma PlayTwo(o: Offer, t: Turn, u: Turn, rest: seq<Turn>)
    ensures Play(o, [t, u] + rest) == Play(Take(Take(o, t), u), rest)
  {
    var turns := [t, u] + rest;
    assert turns[1..][0] == u && turns[1..][1..] == rest;
  }

  /** The vendor has the turn, at time 0, and no floor will end the haggling early. */
  ghost predicate Haggling(o: Offer, p: Product, offer: int, made: int, said: int) {
    && o.status.Pending? && o.store == p.store && o.list == p.price && o.expires >= 0 && p.floor.None?
    && o.offer == offer && o.buyerOffers == made && |o.log| == said
  }

  lemma Round(o: Offer, p: Product, offer: int, made: int, said: int)
    requires Haggling(o, p, offer, made, said) && made < MAX_BUYER_OFFERS && offer + 2 < p.price
    ensures Haggling(Play(o, [VendorSays(0, p.store, Counter(offer + 2)), BuyerSays(0, Counter(offer + 1), Some(p))]),
                     p, offer + 1, made + 1, said + 2)
  {
    var countered := Take(o, VendorSays(0, p.store, Counter(offer + 2)));
    var turns := [VendorSays(0, p.store, Counter(offer + 2)), BuyerSays(0, Counter(offer + 1), Some(p))];
    PlayTwo(o, turns[0], turns[1], []);
    assert turns == [turns[0], turns[1]] + [];
    assert turns[0] == VendorSays(0, p.store, Counter(offer + 2)) && Take(o, turns[0]) == countered;
  }

  lemma Ending(o: Offer, p: Product, offer: int, made: int, said: int, order: OrderId)
    requires Haggling(o, p, offer, made, said) && offer + 1 < p.price
    ensures |Play(o, [VendorSays(0, p.store, Counter(offer + 1)), BuyerSays(0, Accept, Some(p)),
                      SweepAt(OFFER_WINDOW + 1), PaidFor(order)]).log| == said + 4
  {
    var countered := Take(o, VendorSays(0, p.store, Counter(offer + 1)));
    var accepted := Take(countered, BuyerSays(0, Accept, Some(p)));
    var expired := Take(accepted, SweepAt(OFFER_WINDOW + 1));
    var turns := [VendorSays(0, p.store, Counter(offer + 1)), BuyerSays(0, Accept, Some(p)),
                  SweepAt(OFFER_WINDOW + 1), PaidFor(order)];
    PlayTwo(o, turns[0], turns[1], turns[2..]);
    PlayTwo(accepted, turns[2], turns[3], []);
    assert turns == [turns[0], turns[1]] + turns[2..] && turns[2..] == [turns[2], turns[3]] + [];
    assert Take(o, turns[0]) == countered && Take(countered, turns[1]) == accepted;
    assert Take(accepted, turns[2]) == expired;
  }

  /** Nine are reached: three offers, three counters, a deal, its lapse, and a payment after all. */
  lemma NineEventsReached(p: Product, id: ProductId, email: Email, amount: int, order: OrderId)
    requires Screen(Some(p), amount).Ok? && p.floor.None? && amount + 3 < p.price
    ensures exists turns :: |Play(Opening(p, id, email, amount, 1, 0), turns).log| == 9
  {
    var o := Opening(p, id, email, amount, 1, 0);
    var first := [VendorSays(0, p.store, Counter(amount + 2)), BuyerSays(0, Counter(amount + 1), Some(p))];
    var second := [VendorSays(0, p.store, Counter(amount + 3)), BuyerSays(0, Counter(amount + 2), Some(p))];
    var last := [VendorSays(0, p.store, Counter(amount + 3)), BuyerSays(0, Accept, Some(p)),
                 SweepAt(OFFER_WINDOW + 1), PaidFor(order)];
    Round(o, p, amount, 1, 1);
    Round(Play(o, first), p, amount + 1, 2, 3);
    Ending(Play(Play(o, first), second), p, amount + 2, 3, 5, order);
    PlayAppend(Play(o, first), second, last);
    PlayAppend(o, first, second + last);
    assert |Play(o, first + (second + last)).log| == 9;
  }
}
