/** A deal once struck can be bought with: whatever else happens in its 48 hours, a line at its
    price is accepted at checkout until somebody has bought with it. */
module Honoured {
  import opened Base
  import opened Negotiation
  import opened Ledger
  import opened Orders
  import opened Market
  import opened Tables
  import opened Answers
  import opened Service

  /** The deal as it was struck, or bought with since, or past its window and marked so. */
  ghost predicate Stands(offers: map<OfferId, Offer>, now: int, f: OfferId, deal: Offer) {
    && f in offers
    && (offers[f] == deal || offers[f].status == Redeemed || (offers[f].status == Expired && now > deal.expires))
  }

  // ---------- No step but a purchase touches it ----------

  lemma CreateStands(s: State, id: OfferId, product: ProductId, email: Email, amount: int, quantity: int, f: OfferId,
                     deal: Offer)
    requires Stands(s.offers, s.now, f, deal)
    ensures Stands(CreateOfferStep(s, id, product, email, amount, quantity).state.offers, s.now, f, deal)
  {
    hide Screen, Opening, RecentOffers, OpenExists;
  }

  lemma BuyerStands(s: State, id: OfferId, who: Option<Email>, answer: Answer, f: OfferId, deal: Offer)
    requires Stands(s.offers, s.now, f, deal) && deal.status == Accepted
    ensures Stands(BuyerMoveStep(s, id, who, answer).state.offers, s.now, f, deal)
  {
    if id in s.offers {
      BuyerAnswered(s.offers[id], s.now, answer, Lookup(s.products, s.offers[id].product));
      hide BuyerMove, BuyerLeft;
    }
  }

  lemma VendorStands(s: State, id: OfferId, store: StoreId, answer: Answer, f: OfferId, deal: Offer)
    requires Stands(s.offers, s.now, f, deal) && deal.status == Accepted
    ensures Stands(VendorMoveStep(s, id, store, answer).state.offers, s.now, f, deal)
  {
    if id in s.offers {
      VendorAnswered(s.offers[id], s.now, store, answer);
      hide VendorMove, VendorLeft;
    }
  }

  lemma ExpiryStands(s: State, only: Option<StoreId>, f: OfferId, deal: Offer)
    requires Stands(s.offers, s.now, f, deal) && deal.status == Accepted
    ensures Stands(ExpireAll(s.offers, only, s.now), s.now, f, deal)
  {
  }

  lemma PayOneStands(s: State, ref: Ref, id: OrderId, lone: bool, f: OfferId, deal: Offer)
    requires Stands(s.offers, s.now, f, deal) && deal.status == Accepted
    ensures Stands(PayOne(s, ref, id, lone).offers, s.now, f, deal)
  {
    hide Insert, CreditRow, Names;
  }

  lemma {:induction false} PayAllStands(s: State, ref: Ref, rows: seq<OrderId>, lone: bool, f: OfferId, deal: Offer)
    requires Stands(s.offers, s.now, f, deal) && deal.status == Accepted
    ensures Stands(PayAll(s, ref, rows, lone).offers, s.now, f, deal)
    decreases |rows|
  {
    hide PayOne, Stands;
    if rows != [] {
      PayOneStands(s, ref, rows[0], lone, f, deal);
      PayAllStands(PayOne(s, ref, rows[0], lone), ref, rows[1..], lone, f, deal);
    }
  }

  lemma CommitStands(s: State, sid: SessionId, f: OfferId, deal: Offer)
    requires Stands(s.offers, s.now, f, deal) && deal.status == Accepted
    ensures Stands(CommitConfirmStep(s, sid).state.offers, s.now, f, deal)
  {
    hide PayAll, Stands;
    if sid in s.sessions && s.sessions[sid].Confirming? {
      var c := s.sessions[sid];
      PayAllStands(Close(s, sid), c.ref, c.rows, c.lone, f, deal);
    }
  }

  predicate Haggles(a: Step) {
    a.CreateOffer? || a.BuyerMoves? || a.VendorMoves? || a.ExpireOffers? || a.CommitConfirm?
  }

  lemma SameDeals(s: State, a: Step)
    requires !Haggles(a)
    ensures Next(s, a).state.offers == s.offers
  {
    hide BeginCheckoutStep, PriceLineStep, PlaceOrdersStep, BeginConfirmStep, AbandonAll, VendorWritesStep, ActOn,
         BeginSweepStep, SweepStep, WithdrawStep, DepositStep;
  }

  lemma HaggleIs(s: State, a: Step)
    requires Haggles(a)
    ensures Next(s, a).state.offers ==
            match a {
              case CreateOffer(id, product, email, amount, quantity) =>
                CreateOfferStep(s, id, product, email, amount, quantity).state.offers
              case BuyerMoves(id, who, answer) => BuyerMoveStep(s, id, who, answer).state.offers
              case VendorMoves(id, store, answer) => VendorMoveStep(s, id, store, answer).state.offers
              case ExpireOffers(only) => ExpireAll(s.offers, only, s.now)
              case CommitConfirm(sid) => CommitConfirmStep(s, sid).state.offers
            }
  {
    hide CreateOfferStep, BuyerMoveStep, VendorMoveStep, ExpireAll, CommitConfirmStep;
  }

  lemma StandsLater(offers: map<OfferId, Offer>, now: int, later: int, f: OfferId, deal: Offer)
    requires now <= later
    ensures Stands(offers, now, f, deal) ==> Stands(offers, later, f, deal)
  {
  }

  lemma StepStands(s: State, a: Step, f: OfferId, deal: Offer)
    requires Stands(s.offers, s.now, f, deal) && deal.status == Accepted
    ensures Stands(Next(s, a).state.offers, Next(s, a).state.now, f, deal)
  {
    hide *;
    ClockForward(s, a);
    StandsLater(Next(s, a).state.offers, s.now, Next(s, a).state.now, f, deal);
    if Haggles(a) {
      HaggleIs(s, a);
      match a {
        case CreateOffer(id, product, email, amount, quantity) =>
          CreateStands(s, id, product, email, amount, quantity, f, deal);
        case BuyerMoves(id, who, answer) => BuyerStands(s, id, who, answer, f, deal);
        case VendorMoves(id, store, answer) => VendorStands(s, id, store, answer, f, deal);
        case ExpireOffers(only) => ExpiryStands(s, only, f, deal);
        case CommitConfirm(sid) => CommitStands(s, sid, f, deal);
        case _ => IsHaggling(a);
      }
    } else {
      SameDeals(s, a);
    }
  }

  lemma IsHaggling(a: Step)
    requires Haggles(a)
    ensures a.CreateOffer? || a.BuyerMoves? || a.VendorMoves? || a.ExpireOffers? || a.CommitConfirm?
  {
  }

  lemma {:induction false} RunStands(s: State, steps: seq<Step>, f: OfferId, deal: Offer)
    requires Stands(s.offers, s.now, f, deal) && deal.status == Accepted
    ensures Stands(Run(s, steps).offers, Run(s, steps).now, f, deal)
    decreases |steps|
  {
    hide Stands, Next;
    if steps != [] {
      StepStands(s, steps[0], f, deal);
      RunStands(Next(s, steps[0]).state, steps[1..], f, deal);
    }
  }

  // ---------- From the handshake to the checkout ----------

  /** The price at which a step, if taken, strikes a deal on `f`: the vendor takes the buyer's offer,
      the buyer takes the vendor's counter, or an offer reaches the vendor's floor. */
  ghost function StrikesAt(s: State, a: Step, f: OfferId): Option<int> {
    match a
    case VendorMoves(id, _, answer) =>
      if id == f && answer.Accept? && f in s.offers then Some(s.offers[f].offer) else None
    case BuyerMoves(id, _, answer) =>
      if id != f || f !in s.offers then None
      else if answer.Accept? then s.offers[f].counter
      else if answer.Counter? && AtFloor(Lookup(s.products, s.offers[f].product), answer.amount)
      then Some(answer.amount)
      else None
    case CreateOffer(id, product, _, amount, _) =>
      if id == f && AtFloor(Lookup(s.products, product), amount) then Some(amount) else None
    case _ => None
  }

  lemma Strikes(s: State, a: Step, f: OfferId)
    requires StrikesAt(s, a, f).Some? && Next(s, a).reply.Ok?
    ensures var t := Next(s, a).state;
            && f in t.offers && t.offers[f].status == Accepted && t.offers[f].agreed == StrikesAt(s, a, f)
            && t.offers[f].expires == s.now + 48 * 3600 && t.now == s.now
  {
    match a
    case VendorMoves(id, store, answer) => VendorAnswered(s.offers[f], s.now, store, answer); hide VendorMove;
    case BuyerMoves(id, who, answer) =>
      BuyerAnswered(s.offers[f], s.now, answer, Lookup(s.products, s.offers[f].product)); hide BuyerMove;
    case CreateOffer(id, product, email, amount, quantity) =>
      OpeningAnswered(Lookup(s.products, product), product, email, amount, quantity, s.now);
      hide Screen, Opening, RecentOffers, OpenExists;
  }

  /** The buyer can hold the store to the deal. Whoever accepted, and whatever everyone does
      afterwards: as long as nobody has bought with the deal and its store lists the product, a
      checkout line for the product at the deal's price, in any quantity up to the deal's, is
      accepted for its buyer for 48 hours, and no longer. */
  lemma {:induction false} DealHonoured(s: State, a: Step, steps: seq<Step>, f: OfferId, store: StoreId, quantity: int)
    requires StrikesAt(s, a, f).Some? && Next(s, a).reply.Ok?
    requires var deal, t := Next(s, a).state.offers[f], Run(Next(s, a).state, steps);
             && f in t.offers && t.offers[f].status != Redeemed
             && deal.product in t.products && t.products[deal.product].published
             && t.products[deal.product].store == store
             && 1 <= quantity <= deal.quantity
    ensures var deal, t := Next(s, a).state.offers[f], Run(Next(s, a).state, steps);
            Agreed(t, store, deal.email, [Line(deal.product, quantity, StrikesAt(s, a, f).value, Some(f))])
            <==> t.now <= s.now + 48 * 3600
  {
    hide *;
    Strikes(s, a, f);
    var u := Next(s, a).state;
    StruckStands(u, f);
    RunStands(u, steps, f, u.offers[f]);
    DealPriced(Run(u, steps), f, u.offers[f], store, quantity);
  }

  lemma StruckStands(u: State, f: OfferId)
    requires f in u.offers
    ensures Stands(u.offers, u.now, f, u.offers[f])
  {
  }

  lemma DealPriced(t: State, f: OfferId, deal: Offer, store: StoreId, quantity: int)
    requires Stands(t.offers, t.now, f, deal) && deal.status == Accepted && deal.agreed.Some?
    requires f in t.offers && t.offers[f].status != Redeemed && 1 <= quantity <= deal.quantity
    requires deal.product in t.products && t.products[deal.product].published && t.products[deal.product].store == store
    ensures Agreed(t, store, deal.email, [Line(deal.product, quantity, deal.agreed.value, Some(f))])
       <==> t.now <= deal.expires
  {
    var l := Line(deal.product, quantity, deal.agreed.value, Some(f));
    DealUnitsAppend([], l, f);
    assert [] + [l] == [l];
    assert DealUnits([l], f) == quantity;
    hide DealUnits;
    assert [l][0] == l;
    assert PricedRight(t, store, deal.email, l) <==> t.now <= deal.expires;
    forall g | Names([l], g) && t.now <= deal.expires && g in t.offers
      ensures DealUnits([l], g) <= t.offers[g].quantity
    {
      assert g == f;
    }
  }
}
