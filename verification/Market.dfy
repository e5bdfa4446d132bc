/** The marketplace as one state machine. A single SQL statement or transaction is one
    step. Checkout, payment confirmation and the auto-release sweep read outside their
    transactions, so they run as sessions of several steps that anything may interleave. */
module Market {
  import opened Base
  import opened Negotiation
  import opened Ledger
  import opened Orders

  const DAY := 24 * 3600
  const DAILY_OFFERS := 3

  datatype Basket = Basket(store: StoreId, lines: seq<Line>)

  /** A checkout request whose reference and delivery fee are resolved. */
  datatype Checkout = Checkout(email: Email, ref: Ref, baskets: seq<Basket>, fee: nat, isPickup: bool)

  datatype Session =
    | Pricing(req: Checkout, k: nat, i: nat, units: map<OfferId, int>)
    | Confirming(ref: Ref, rows: seq<OrderId>, lone: bool)
    | Sweeping(rows: seq<OrderId>, pos: nat, between: bool)

  /** `index` lists the orders on each payment reference in insertion order; `charges`
      is what Paystack took under each reference. */
  datatype State = State(
    now: int,
    products: map<ProductId, Product>,
    offers: map<OfferId, Offer>,
    orders: map<OrderId, Order>,
    index: map<Ref, seq<OrderId>>,
    ledger: seq<Entry>,
    charges: map<Ref, int>,
    sessions: map<SessionId, Session>)

  datatype Out = Out(state: State, reply: Result<()>)

  function Lookup<K, V>(m: map<K, V>, k: K): Option<V> {
    if k in m then Some(m[k]) else None
  }

  function Refused(s: State, error: Error): Out {
    Out(s, Err(error))
  }

  // ---------- Negotiation over the table ----------

  predicate SameHaggle(o: Offer, product: ProductId, email: Email) {
    o.product == product && o.email == email
  }

  function RecentOffers(offers: map<OfferId, Offer>, product: ProductId, email: Email, now: int): set<OfferId> {
    set f | f in offers && SameHaggle(offers[f], product, email) && offers[f].created > now - DAY
  }

  /** The unique index over open rows. It does not look at their windows. */
  predicate OpenExists(offers: map<OfferId, Offer>, product: ProductId, email: Email) {
    exists f :: f in offers && Open(offers[f]) && SameHaggle(offers[f], product, email)
  }

  function CreateOfferStep(s: State, id: OfferId, product: ProductId, email: Email, amount: int, quantity: int)
    : (out: Out)
    ensures out.state == s.(offers := out.state.offers)
  {
    if id in s.offers then Refused(s, Internal)
    else if amount < 1 || quantity < 0 || quantity > 10 then Refused(s, BadRequest)
    else
      match Screen(Lookup(s.products, product), amount)
      case Err(e) => Refused(s, e)
      case Ok(p) =>
        if |RecentOffers(s.offers, product, email, s.now)| >= DAILY_OFFERS then Refused(s, TooManyRequests)
        else
          var row := Opening(p, product, email, amount, quantity, s.now);
          if Open(row) && OpenExists(s.offers, product, email) then Refused(s, Conflict)
          else Out(s.(offers := s.offers[id := row]), Ok(()))
  }

  function WithOffer(s: State, id: OfferId, r: Result<Offer>): (out: Out)
    ensures out.state == s.(offers := out.state.offers)
  {
    match r
    case Err(e) => Refused(s, e)
    case Ok(o) => Out(s.(offers := s.offers[id := o]), Ok(()))
  }

  function BuyerMoveStep(s: State, id: OfferId, who: Option<Email>, answer: Answer): (out: Out)
    ensures out.state == s.(offers := out.state.offers)
  {
    if id !in s.offers then Refused(s, NotFound)
    else if who.Some? && who.value != s.offers[id].email then Refused(s, NotFound)
    else WithOffer(s, id, BuyerMove(s.offers[id], s.now, answer, Lookup(s.products, s.offers[id].product)))
  }

  function VendorMoveStep(s: State, id: OfferId, store: StoreId, answer: Answer): (out: Out)
    ensures out.state == s.(offers := out.state.offers)
  {
    if id !in s.offers then Refused(s, NotFound)
    else WithOffer(s, id, VendorMove(s.offers[id], s.now, store, answer))
  }

  function ExpireAll(offers: map<OfferId, Offer>, store: Option<StoreId>, now: int): map<OfferId, Offer> {
    map f | f in offers ::
      if store.None? || store.value == offers[f].store then ExpireRow(offers[f], now) else offers[f]
  }

  function RedeemAll(offers: map<OfferId, Offer>, lines: seq<Line>, order: OrderId): map<OfferId, Offer> {
    map f | f in offers :: if Names(lines, f) then RedeemRow(offers[f], order) else offers[f]
  }

  // ---------- Checkout ----------

  predicate ValidLine(l: Line) {
    l.quantity >= 1 && l.price >= 0
  }

  predicate ValidRequest(req: Checkout) {
    && req.ref != "" && req.baskets != []
    && forall k :: 0 <= k < |req.baskets| ==>
         && req.baskets[k].lines != []
         && forall i :: 0 <= i < |req.baskets[k].lines| ==> ValidLine(req.baskets[k].lines[i])
  }

  /** The running count of deal units a line adds to, once the line's price is agreed. */
  function CheckLine(s: State, store: StoreId, email: Email, l: Line, units: map<OfferId, int>)
    : Result<map<OfferId, int>>
  {
    if l.product !in s.products || !s.products[l.product].published then Err(BadRequest)
    else if s.products[l.product].store != store then Err(BadRequest)
    else
      match l.deal
      case None => if l.price != s.products[l.product].price then Err(BadRequest) else Ok(units)
      case Some(f) =>
        if f !in s.offers then Err(BadRequest)
        else
          var d := s.offers[f];
          if d.product != l.product || d.email != email then Err(BadRequest)
          else if d.status.Redeemed? then Err(BadRequest)
          else if !d.status.Accepted? || s.now > d.expires || d.agreed.None? then Err(BadRequest)
          else if l.price != d.agreed.value then Err(BadRequest)
          else
            var n := (if f in units then units[f] else 0) + l.quantity;
            if n > d.quantity then Err(BadRequest) else Ok(units[f := n])
  }

  function WithSession(s: State, sid: SessionId, session: Session): State {
    s.(sessions := s.sessions[sid := session])
  }

  function Close(s: State, sid: SessionId): State {
    s.(sessions := s.sessions - {sid})
  }

  function BeginCheckoutStep(s: State, sid: SessionId, req: Checkout): (out: Out)
    ensures out.state == s.(sessions := out.state.sessions)
  {
    if sid in s.sessions then Refused(s, Internal)
    else if !ValidRequest(req) then Refused(s, BadRequest)
    else Out(WithSession(s, sid, Pricing(req, 0, 0, map[])), Ok(()))
  }

  /** One turn of the pricing loop: a line, or the start of the next store's lines. */
  function PriceLineStep(s: State, sid: SessionId): (out: Out)
    ensures out.state == s.(sessions := out.state.sessions)
  {
    if sid !in s.sessions || !s.sessions[sid].Pricing? then Refused(s, Internal)
    else
      var p := s.sessions[sid];
      if p.k >= |p.req.baskets| then Refused(s, Internal)
      else
        var b := p.req.baskets[p.k];
        if p.i >= |b.lines| then Out(WithSession(s, sid, Pricing(p.req, p.k + 1, 0, map[])), Ok(()))
        else
          match CheckLine(s, b.store, p.req.email, b.lines[p.i], p.units)
          case Err(e) => Refused(Close(s, sid), e)
          case Ok(units) => Out(WithSession(s, sid, Pricing(p.req, p.k, p.i + 1, units)), Ok(()))
  }

  /** One delivery for the basket, recorded against the first order. */
  function FeeOf(req: Checkout, k: int): int {
    if k == 0 then req.fee else 0
  }

  function NewOrder(req: Checkout, k: int, now: int): Order
    requires 0 <= k < |req.baskets|
  {
    var b := req.baskets[k];
    Order(b.store, req.email, AwaitingPayment, req.isPickup,
          LinesTotal(b.lines) + FeeOf(req, k), FeeOf(req, k), req.ref, b.lines,
          None, None, None, None, None, Undisputed, now, None, [], {})
  }

  /** The rows the insertion loop has added after its first `k` turns. */
  function InsertOrders(orders: map<OrderId, Order>, req: Checkout, ids: seq<OrderId>, k: int, now: int)
    : map<OrderId, Order>
    requires 0 <= k <= |ids| == |req.baskets|
  {
    if k == 0 then orders
    else InsertOrders(orders, req, ids, k - 1, now)[ids[k - 1] := NewOrder(req, k - 1, now)]
  }

  function RowsOf(index: map<Ref, seq<OrderId>>, ref: Ref): seq<OrderId> {
    if ref in index then index[ref] else []
  }

  /** An insert that the loop or the table's own constraint refuses rolls the whole checkout back. */
  predicate Insertable(req: Checkout) {
    && (req.isPickup ==> req.fee == 0)
    && forall k :: 0 <= k < |req.baskets| ==> LinesTotal(req.baskets[k].lines) > 0
  }

  /** Which refusal comes first: the table's own constraint on pick-up fees stops the loop at
      the first order, an empty total at the order that has it. */
  function InsertError(req: Checkout): Error {
    if req.baskets != [] && LinesTotal(req.baskets[0].lines) > 0 && req.isPickup && req.fee != 0
    then Internal else BadRequest
  }

  predicate FreshIds(orders: map<OrderId, Order>, ids: seq<OrderId>) {
    NoDuplicates(ids) && forall k :: 0 <= k < |ids| ==> ids[k] !in orders
  }

  function PlaceOrdersStep(s: State, sid: SessionId, ids: seq<OrderId>): (out: Out)
    ensures out.state == s.(orders := out.state.orders, index := out.state.index, sessions := out.state.sessions)
  {
    if sid !in s.sessions || !s.sessions[sid].Pricing? then Refused(s, Internal)
    else
      var req := s.sessions[sid].req;
      if s.sessions[sid].k < |req.baskets| || |ids| != |req.baskets|
         || !FreshIds(s.orders, ids)
      then Refused(s, Internal)
      else if !Insertable(req) then Refused(Close(s, sid), InsertError(req))
      else
        Out(Close(s, sid).(orders := InsertOrders(s.orders, req, ids, |ids|, s.now),
                           index := s.index[req.ref := RowsOf(s.index, req.ref) + ids]), Ok(()))
  }

  // ---------- Payment ----------

  function SumTotals(orders: map<OrderId, Order>, rows: seq<OrderId>): int {
    if rows == [] then 0
    else (if rows[0] in orders then orders[rows[0]].total else 0) + SumTotals(orders, rows[1..])
  }

  function CreditRef(ref: Ref, id: OrderId): string {
    ref + "_" + id[..8]
  }

  /** The delivery fee follows whoever delivers. */
  function CreditAmount(o: Order, lone: bool): int {
    (o.total - o.fee) + (if lone && o.fee > 0 then o.fee else 0)
  }

  function CreditRow(o: Order, id: OrderId, ref: Ref, lone: bool): Entry {
    Entry(o.store, Credit, CreditAmount(o, lone), CreditRef(ref, id), Some(id), Held, false)
  }

  predicate AwaitsPayment(orders: map<OrderId, Order>, id: OrderId) {
    id in orders && Unpaid(orders[id].status)
  }

  /** One turn of the confirmation loop. */
  function PayOne(s: State, ref: Ref, id: OrderId, lone: bool): (t: State)
    ensures t == s.(orders := t.orders, ledger := t.ledger, offers := t.offers)
    ensures t.orders.Keys == s.orders.Keys
  {
    if !AwaitsPayment(s.orders, id) then s
    else
      var o := s.orders[id];
      s.(orders := s.orders[id := o.(status := Confirmed, paid := Some(s.now))],
         ledger := Insert(s.ledger, CreditRow(o, id, ref, lone)),
         offers := RedeemAll(s.offers, o.lines, id))
  }

  function PayAll(s: State, ref: Ref, rows: seq<OrderId>, lone: bool): (t: State)
    ensures t == s.(orders := t.orders, ledger := t.ledger, offers := t.offers)
    ensures t.orders.Keys == s.orders.Keys
    decreases |rows|
  {
    if rows == [] then s else PayAll(PayOne(s, ref, rows[0], lone), ref, rows[1..], lone)
  }

  /** The read half of ConfirmPayment. The rows may come back in any order. */
  function BeginConfirmStep(s: State, sid: SessionId, ref: Ref, rows: seq<OrderId>): (out: Out)
    ensures out.state == s.(sessions := out.state.sessions)
  {
    if sid in s.sessions || multiset(rows) != multiset(RowsOf(s.index, ref)) then Refused(s, Internal)
    else if ref == "" then Refused(s, BadRequest)
    else if rows == [] then Refused(s, NotFound)
    else if forall i :: 0 <= i < |rows| ==> !AwaitsPayment(s.orders, rows[i]) then Out(s, Ok(()))
    else if ref !in s.charges || s.charges[ref] != SumTotals(s.orders, rows) then Refused(s, BadRequest)
    else Out(WithSession(s, sid, Confirming(ref, rows, |rows| == 1)), Ok(()))
  }

  /** The transaction half, on the rows read earlier. */
  function CommitConfirmStep(s: State, sid: SessionId): (out: Out)
    ensures out.state == s.(orders := out.state.orders, ledger := out.state.ledger, offers := out.state.offers,
                            sessions := out.state.sessions)
    ensures out.state.orders.Keys == s.orders.Keys
  {
    if sid !in s.sessions || !s.sessions[sid].Confirming? then Refused(s, Internal)
    else
      var c := s.sessions[sid];
      Out(PayAll(Close(s, sid), c.ref, c.rows, c.lone), Ok(()))
  }

  function AbandonRow(o: Order, now: int): Order {
    if o.status.AwaitingPayment? && o.created < now - ABANDON_AFTER then o.(status := Abandoned) else o
  }

  function AbandonAll(orders: map<OrderId, Order>, now: int): map<OrderId, Order> {
    map id | id in orders :: AbandonRow(orders[id], now)
  }

  // ---------- Orders and escrow ----------

  /** The derived fulfilment column. */
  function FulfilmentOf(orders: map<OrderId, Order>, id: OrderId): Fulfilment
    requires id in orders
  {
    if orders[id].ref != "" &&
       exists other :: other in orders && orders[other].ref == orders[id].ref && orders[other].store != orders[id].store
    then ByGoMarketi else ByVendor
  }

  predicate HasHeld(l: seq<Entry>, id: OrderId) {
    exists i :: 0 <= i < |l| && l[i].order == Some(id) && l[i].status.Held?
  }

  function ActOn(s: State, id: OrderId, m: Move): (out: Out)
    ensures out.state == s.(orders := out.state.orders, ledger := out.state.ledger)
    ensures out.state.orders.Keys == s.orders.Keys
  {
    if id !in s.orders then Refused(s, if m.ReleaseEscrow? || m.DismissDispute? || m.HubIntake? then Internal
                                    else NotFound)
    else
      var r := Act(s.orders[id], m, s.now, HasHeld(s.ledger, id));
      Out(s.(orders := s.orders[id := r.order], ledger := Apply(s.ledger, id, r.fx)), r.reply)
  }

  function VendorWritesStep(s: State, id: OrderId, store: StoreId, status: OrderStatus): (out: Out)
    ensures out.state == s.(orders := out.state.orders, ledger := out.state.ledger)
    ensures out.state.orders.Keys == s.orders.Keys
  {
    if id !in s.orders then Refused(s, NotFound)
    else ActOn(s, id, VendorSets(store, status, FulfilmentOf(s.orders, id)))
  }

  /** `rows` are the overdue orders, each once, in some order. */
  predicate DueRows(orders: map<OrderId, Order>, rows: seq<OrderId>, cutoff: int) {
    && NoDuplicates(rows)
    && (forall i :: 0 <= i < |rows| ==> rows[i] in orders && Overdue(orders[rows[i]], cutoff))
    && (forall id :: id in orders && Overdue(orders[id], cutoff) ==> id in rows)
  }

  /** The read half of the auto-release sweep. */
  function BeginSweepStep(s: State, sid: SessionId, rows: seq<OrderId>): (out: Out)
    ensures out.state == s.(sessions := out.state.sessions)
  {
    if sid in s.sessions || !DueRows(s.orders, rows, s.now - ESCROW_WINDOW)
    then Refused(s, Internal)
    else Out(WithSession(s, sid, Sweeping(rows, 0, false)), Ok(()))
  }

  /** The sweep's next statement: mark the order delivered, then release its credit. */
  function SweepStep(s: State, sid: SessionId): (out: Out)
    ensures out.state == s.(orders := out.state.orders, ledger := out.state.ledger, sessions := out.state.sessions)
    ensures out.state.orders.Keys == s.orders.Keys
  {
    if sid !in s.sessions || !s.sessions[sid].Sweeping? then Refused(s, Internal)
    else
      var w := s.sessions[sid];
      if w.pos >= |w.rows| then Out(Close(s, sid), Ok(()))
      else if !w.between then
        var out := ActOn(s, w.rows[w.pos], SweepMark);
        Out(WithSession(out.state, sid, Sweeping(w.rows, w.pos, true)), Ok(()))
      else
        var out := ActOn(s, w.rows[w.pos], SweepRelease);
        Out(WithSession(out.state, sid, Sweeping(w.rows, w.pos + 1, false)), Ok(()))
  }

  // ---------- Wallet ----------

  function WithdrawStep(s: State, store: StoreId, amount: int, token: string): (out: Out)
    ensures out.state == s.(ledger := out.state.ledger)
  {
    if amount < 100 then Refused(s, BadRequest)
    else if amount > Total(Balance(store), s.ledger) then Refused(s, BadRequest)
    else if Taken(s.ledger, "WD_" + token) then Refused(s, Internal)
    else Out(s.(ledger := s.ledger + [Entry(store, Debit, amount, "WD_" + token, None, Completed, false)]), Ok(()))
  }

  /** A bank transfer into a vendor's account, once the customer code found its store. */
  function DepositStep(s: State, store: StoreId, amount: int, reference: string): (out: Out)
    ensures out.state == s.(ledger := out.state.ledger)
  {
    if reference == "" || amount <= 0 then Out(s, Ok(()))
    else Out(s.(ledger := Insert(s.ledger, Entry(store, Credit, amount, reference, None, Completed, false))), Ok(()))
  }

  // ---------- The machine ----------

  datatype Step =
    | Tick(to: int)
    | SetProduct(product: ProductId, row: Product)
    | CreateOffer(id: OfferId, product: ProductId, email: Email, amount: int, quantity: int)
    | BuyerMoves(id: OfferId, who: Option<Email>, answer: Answer)
    | VendorMoves(id: OfferId, store: StoreId, answer: Answer)
    | ExpireOffers(only: Option<StoreId>)
    | BeginCheckout(sid: SessionId, req: Checkout)
    | PriceLine(sid: SessionId)
    | PlaceOrders(sid: SessionId, ids: seq<OrderId>)
    | Charge(ref: Ref, amount: int)
    | BeginConfirm(sid: SessionId, ref: Ref, rows: seq<OrderId>)
    | CommitConfirm(sid: SessionId)
    | MarkAbandoned
    | VendorWrites(order: OrderId, store: StoreId, status: OrderStatus)
    | OnOrder(order: OrderId, move: Move)
    | BeginSweep(sid: SessionId, rows: seq<OrderId>)
    | Sweep(sid: SessionId)
    | PayOut(store: StoreId, amount: int, token: string)
    | Deposit(store: StoreId, amount: int, reference: string)

  function Next(s: State, a: Step): Out {
    match a
    case Tick(to) => Out(s.(now := if to > s.now then to else s.now), Ok(()))
    case SetProduct(product, row) => Out(s.(products := s.products[product := row]), Ok(()))
    case CreateOffer(id, product, email, amount, quantity) => CreateOfferStep(s, id, product, email, amount, quantity)
    case BuyerMoves(id, who, answer) => BuyerMoveStep(s, id, who, answer)
    case VendorMoves(id, store, answer) => VendorMoveStep(s, id, store, answer)
    case ExpireOffers(only) => Out(s.(offers := ExpireAll(s.offers, only, s.now)), Ok(()))
    case BeginCheckout(sid, req) => BeginCheckoutStep(s, sid, req)
    case PriceLine(sid) => PriceLineStep(s, sid)
    case PlaceOrders(sid, ids) => PlaceOrdersStep(s, sid, ids)
    case Charge(ref, amount) =>
      if ref in s.charges then Refused(s, BadRequest) else Out(s.(charges := s.charges[ref := amount]), Ok(()))
    case BeginConfirm(sid, ref, rows) => BeginConfirmStep(s, sid, ref, rows)
    case CommitConfirm(sid) => CommitConfirmStep(s, sid)
    case MarkAbandoned => Out(s.(orders := AbandonAll(s.orders, s.now)), Ok(()))
    case VendorWrites(id, store, status) => VendorWritesStep(s, id, store, status)
    case OnOrder(id, move) =>
      if move.VendorSets? || move.SweepMark? || move.SweepRelease? then Refused(s, Internal) else ActOn(s, id, move)
    case BeginSweep(sid, rows) => BeginSweepStep(s, sid, rows)
    case Sweep(sid) => SweepStep(s, sid)
    case PayOut(store, amount, token) => WithdrawStep(s, store, amount, token)
    case Deposit(store, amount, reference) => DepositStep(s, store, amount, reference)
  }

  function Run(s: State, steps: seq<Step>): State
    decreases |steps|
  {
    if steps == [] then s else Run(Next(s, steps[0]).state, steps[1..])
  }

  lemma {:induction false} RunAppend(s: State, xs: seq<Step>, ys: seq<Step>)
    ensures Run(s, xs + ys) == Run(Run(s, xs), ys)
    decreases |xs|
  {
    if xs == [] {
      assert xs + ys == ys;
    } else {
      assert (xs + ys)[1..] == xs[1..] + ys;
      RunAppend(Next(s, xs[0]).state, xs[1..], ys);
    }
  }

  /** The steps that act on one order. */
  lemma OrderStepIs(s: State, a: Step)
    requires a.VendorWrites? || a.OnOrder? || a.Sweep?
    ensures var t := Next(s, a).state;
            match a {
              case VendorWrites(id, store, status) => t == VendorWritesStep(s, id, store, status).state
              case OnOrder(id, move) => t == s || t == ActOn(s, id, move).state
              case Sweep(sid) => t == SweepStep(s, sid).state
            }
  {
    hide VendorWritesStep, ActOn, SweepStep;
  }

  /** The steps that place, pay for or give up orders. */
  lemma CheckoutStepIs(s: State, a: Step)
    requires a.PlaceOrders? || a.CommitConfirm? || a.MarkAbandoned?
    ensures var t := Next(s, a).state;
            match a {
              case PlaceOrders(sid, ids) => t == PlaceOrdersStep(s, sid, ids).state
              case CommitConfirm(sid) => t == CommitConfirmStep(s, sid).state
              case MarkAbandoned => t == s.(orders := AbandonAll(s.orders, s.now))
            }
  {
    hide PlaceOrdersStep, CommitConfirmStep, AbandonAll;
  }

  lemma CommitIs(s: State, sid: SessionId)
    requires sid in s.sessions && s.sessions[sid].Confirming?
    ensures var c := s.sessions[sid];
            CommitConfirmStep(s, sid).state == PayAll(Close(s, sid), c.ref, c.rows, c.lone)
  {
    hide PayAll;
  }

  lemma NextSweep(s: State, sid: SessionId)
    ensures Next(s, Sweep(sid)) == SweepStep(s, sid)
  {
    hide SweepStep;
  }

  /** A payout or a deposit adds at most one completed row, which belongs to no order. */
  lemma MoneyAdds(s: State, a: Step) returns (e: Entry)
    requires a.PayOut? || a.Deposit?
    ensures Next(s, a).state == s.(ledger := Next(s, a).state.ledger)
    ensures e.order.None? && e.status.Completed?
    ensures e.reference == if a.PayOut? then "WD_" + a.token else a.reference
    ensures Next(s, a).state.ledger == s.ledger
         || (Next(s, a).state.ledger == s.ledger + [e] && !Taken(s.ledger, e.reference))
  {
    hide Total, Taken;
    match a
    case PayOut(store, amount, token) => e := Entry(store, Debit, amount, "WD_" + token, None, Completed, false);
    case Deposit(store, amount, reference) => e := Entry(store, Credit, amount, reference, None, Completed, false);
  }

  lemma ClockForward(s: State, a: Step)
    ensures s.now <= Next(s, a).state.now
  {
    hide CreateOfferStep, BuyerMoveStep, VendorMoveStep, ExpireAll, BeginCheckoutStep, PriceLineStep,
         PlaceOrdersStep, BeginConfirmStep, CommitConfirmStep, AbandonAll, VendorWritesStep, ActOn,
         BeginSweepStep, SweepStep, WithdrawStep, DepositStep;
  }

  lemma {:induction false} RunForward(s: State, steps: seq<Step>)
    ensures s.now <= Run(s, steps).now
    decreases |steps|
  {
    hide Next;
    if steps != [] {
      ClockForward(s, steps[0]);
      RunForward(Next(s, steps[0]).state, steps[1..]);
    }
  }

  /** A marketplace nobody has used yet, whatever its catalogue. */
  ghost predicate Unused(s: State) {
    && s.offers == map[] && s.orders == map[] && s.index == map[]
    && s.ledger == [] && s.charges == map[] && s.sessions == map[]
  }
}
