/** One order: its lines, its lifecycle, and what each action does to it and to its credit. */
module Orders {
  import opened Base
  import opened Ledger

  const ABANDON_AFTER := 10 * 60
  const ESCROW_WINDOW := 7 * 24 * 3600

  /** `Unreviewed` is the stored status 'pending', which nothing here writes. */
  datatype OrderStatus =
    | AwaitingPayment | Unreviewed | Confirmed | AtHub | Shipped | ReadyForCollection
    | Delivered | Cancelled | Abandoned

  datatype Dispute = Undisputed | Reported | Refunded | Dismissed

  datatype Fulfilment = ByVendor | ByGoMarketi

  datatype CancelReason = VendorNoShow | VendorCancelled | NotReceived

  /** Why a credit was released: a history variable. */
  datatype Reason = BuyerConfirmed | AutoReleased | AdminReleased

  datatype Line = Line(product: ProductId, quantity: int, price: int, deal: Option<OfferId>)

  /** `refunds` (the refunds Paystack made) and `reasons` are history variables. */
  datatype Order = Order(
    store: StoreId, email: Email, status: OrderStatus, isPickup: bool,
    total: int, fee: int, ref: Ref, lines: seq<Line>,
    hub: Option<int>, dispatched: Option<int>, delivered: Option<int>, confirmed: Option<int>,
    cancelReason: Option<CancelReason>, dispute: Dispute,
    created: int, paid: Option<int>, refunds: seq<int>, reasons: set<Reason>)

  function LinesTotal(lines: seq<Line>): int {
    if lines == [] then 0 else lines[0].price * lines[0].quantity + LinesTotal(lines[1..])
  }

  /** Units of a deal that the lines buy. */
  function DealUnits(lines: seq<Line>, deal: OfferId): int {
    if lines == [] then 0
    else
      var l := lines[|lines| - 1];
      DealUnits(lines[..|lines| - 1], deal) + (if l.deal == Some(deal) then l.quantity else 0)
  }

  predicate Names(lines: seq<Line>, deal: OfferId) {
    exists i :: 0 <= i < |lines| && lines[i].deal == Some(deal)
  }

  predicate Unpaid(status: OrderStatus) {
    status.AwaitingPayment? || status.Abandoned?
  }

  predicate Overdue(o: Order, cutoff: int) {
    && o.status.Shipped?
    && o.dispatched.Some? && o.dispatched.value < cutoff
    && o.confirmed.None?
    && !o.dispute.Reported?
  }

  /** Which statuses a vendor may set. */
  predicate VendorMaySet(f: Fulfilment, isPickup: bool, status: OrderStatus) {
    match status
    case Confirmed => true
    case Cancelled => true
    case ReadyForCollection => isPickup
    case Shipped => !isPickup && f.ByVendor?
    case _ => false
  }

  // ---------- Actions ----------

  datatype Move =
    | VendorSets(store: StoreId, status: OrderStatus, carrier: Fulfilment)
    | ConfirmDelivery(email: Email)
    | ReportMissing(email: Email)
    | DisputeRefund(paystackAgrees: bool)
    | NoShowRefund(paystackAgrees: bool)
    | DismissDispute
    | HubIntake
    | Ship
    | ReleaseEscrow
    | SweepMark
    | SweepRelease

  /** The row afterwards, the update to the order's ledger rows, and the reply. */
  datatype Outcome = Outcome(order: Order, fx: Effect, reply: Result<()>)

  function Refuse(o: Order, error: Error): Outcome {
    Outcome(o, Keep, Err(error))
  }

  function CancelAndRefund(o: Order, paystackAgrees: bool, reason: CancelReason): Outcome {
    if o.status.Cancelled? then Outcome(o, Keep, Ok(()))
    else if o.status.Shipped? || o.status.Delivered? then Refuse(o, BadRequest)
    else if o.ref == "" then Refuse(o, Internal)
    else if !paystackAgrees then Refuse(o, Internal)
    else Outcome(o.(status := Cancelled, cancelReason := Some(reason), refunds := o.refunds + [o.total]),
                 VoidHeld, Ok(()))
  }

  /** Cancelling writes the new status first; the refund that follows then finds the
      order already cancelled. */
  function UpdateStatus(o: Order, store: StoreId, status: OrderStatus, carrier: Fulfilment, now: int): Outcome {
    if o.store != store then Refuse(o, NotFound)
    else if !VendorMaySet(carrier, o.isPickup, status) then Refuse(o, BadRequest)
    else
      var written := o.(
                     status := status,
                     dispatched := if (status.Shipped? || status.ReadyForCollection?) && o.dispatched.None?
                     then Some(now) else o.dispatched);
      if status.Cancelled?
      then Outcome(CancelAndRefund(written, true, VendorCancelled).order,
                   CancelAndRefund(written, true, VendorCancelled).fx, Ok(()))
      else Outcome(written, Keep, Ok(()))
  }

  function RefundDispute(o: Order, paystackAgrees: bool): Outcome {
    if o.dispute.Refunded? then Outcome(o, Keep, Ok(()))
    else if !o.dispute.Reported? then Refuse(o, BadRequest)
    else if o.ref == "" then Refuse(o, Internal)
    else if !paystackAgrees then Refuse(o, Internal)
    else Outcome(o.(status := Cancelled, cancelReason := Some(NotReceived), dispute := Refunded,
                    refunds := o.refunds + [o.total]),
                 VoidLive, Ok(()))
  }

  /** `held` says whether the ledger has a pending row for this order. */
  function Act(o: Order, m: Move, now: int, held: bool): Outcome {
    match m
    case VendorSets(store, status, carrier) => UpdateStatus(o, store, status, carrier, now)
    case ConfirmDelivery(email) =>
      if o.email != email then Refuse(o, NotFound)
      else if !o.status.Shipped? && !o.status.ReadyForCollection? then Refuse(o, BadRequest)
      else Outcome(o.(status := Delivered, delivered := Some(now), confirmed := Some(now),
                      reasons := o.reasons + {BuyerConfirmed}),
                   Release, Ok(()))
    case ReportMissing(email) =>
      if o.email != email then Refuse(o, NotFound)
      else if !o.status.Shipped? && !o.status.Delivered? then Refuse(o, BadRequest)
      else if o.dispute.Reported? then Outcome(o, Keep, Ok(()))
      else if !o.dispute.Undisputed? then Refuse(o, BadRequest)
      else Outcome(o.(dispute := Reported), Keep, Ok(()))
    case DisputeRefund(agrees) => RefundDispute(o, agrees)
    case NoShowRefund(agrees) => CancelAndRefund(o, agrees, VendorNoShow)
    case DismissDispute =>
      if !o.dispute.Reported? then Refuse(o, Internal)
      else Outcome(o.(dispute := Dismissed), Keep, Ok(()))
    case HubIntake =>
      if !o.status.Confirmed? then Refuse(o, Internal)
      else Outcome(o.(status := AtHub, hub := Some(now)), Keep, Ok(()))
    case Ship => Outcome(o.(status := Shipped, dispatched := Some(now)), Keep, Ok(()))
    case ReleaseEscrow =>
      if !held then Refuse(o, Internal)
      else Outcome(o.(reasons := o.reasons + {AdminReleased}), Release, Ok(()))
    case SweepMark =>
      if !o.status.Shipped? then Outcome(o, Keep, Ok(()))
      else Outcome(o.(status := Delivered, delivered := Some(now), confirmed := Some(now)), Keep, Ok(()))
    case SweepRelease => Outcome(o.(reasons := o.reasons + {AutoReleased}), Release, Ok(()))
  }

  /** `after` is a later state of the order `before`. */
  ghost predicate OrderFollows(before: Order, after: Order) {
    && after.store == before.store && after.email == before.email && after.isPickup == before.isPickup
    && after.total == before.total && after.fee == before.fee && after.ref == before.ref
    && after.lines == before.lines && after.created == before.created
    && (before.paid.Some? ==> after.paid == before.paid)
    && before.refunds <= after.refunds
    && before.reasons <= after.reasons
    && (Unpaid(after.status) ==> Unpaid(before.status))
    && (before.dispute.Refunded? ==> after.dispute.Refunded?)
    && (before.dispute.Dismissed? ==> after.dispute.Dismissed?)
  }

  lemma ActFollows(o: Order, m: Move, now: int, held: bool)
    ensures OrderFollows(o, Act(o, m, now, held).order)
    ensures Act(o, m, now, held).order.paid == o.paid
    ensures Unpaid(o.status) && Unpaid(Act(o, m, now, held).order.status)
            ==> Act(o, m, now, held).order.status == o.status
  {
  }

  /** What every stored order satisfies on its own. */
  ghost predicate OrderShape(o: Order) {
    && o.ref != "" && 0 <= o.fee && LinesTotal(o.lines) > 0
    && o.total == LinesTotal(o.lines) + o.fee
    && (Unpaid(o.status) ==> o.paid.None?)
    && (o.status.AtHub? ==> o.hub.Some?)
    && (o.isPickup ==> o.fee == 0)
  }

  lemma ActShape(o: Order, m: Move, now: int, held: bool)
    requires OrderShape(o)
    ensures OrderShape(Act(o, m, now, held).order)
  {
  }

  /** A credit is released only together with a recorded reason for it. */
  lemma ReleaseHasReason(o: Order, m: Move, now: int, held: bool)
    requires Act(o, m, now, held).fx.Release?
    ensures Act(o, m, now, held).order.reasons != {}
  {
    var r := Act(o, m, now, held).order.reasons;
    assert BuyerConfirmed in r || AutoReleased in r || AdminReleased in r;
  }

  // ---------- Lines ----------

  /** A line costs its price as often as its quantity says, and lines add up. */
  lemma {:induction false} LinesAddUp(xs: seq<Line>, ys: seq<Line>, l: Line)
    ensures LinesTotal([]) == 0 && LinesTotal([l]) == l.price * l.quantity
    ensures LinesTotal(xs + ys) == LinesTotal(xs) + LinesTotal(ys)
  {
    if xs == [] {
      assert xs + ys == ys;
    } else {
      assert (xs + ys)[1..] == xs[1..] + ys;
      LinesAddUp(xs[1..], ys, l);
    }
  }

  lemma DealUnitsAppend(lines: seq<Line>, l: Line, deal: OfferId)
    ensures DealUnits(lines + [l], deal) == DealUnits(lines, deal) + (if l.deal == Some(deal) then l.quantity else 0)
  {
    assert (lines + [l])[..|lines|] == lines;
  }
}
