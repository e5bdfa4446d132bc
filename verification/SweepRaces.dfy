/** The auto-release sweep reads its rows first and writes them later, two statements an order.
    When its second statement pays an order that is not delivered, or one in dispute. */
module SweepRaces {
  import opened Base
  import opened Ledger
  import opened Orders
  import opened Market
  import opened Tables
  import opened Escrow

  // ---------- What happens to one order ----------

  /** An action on the order, and when. */
  datatype Deed = Deed(move: Move, at: int)

  /** The order, and whether its credit is still pending. */
  datatype Stand = Stand(order: Order, held: bool)

  function Done(x: Stand, d: Deed): Stand {
    var r := Act(x.order, d.move, d.at, x.held);
    Stand(r.order, x.held && r.fx.Keep?)
  }

  function Replay(x: Stand, deeds: seq<Deed>): Stand {
    if deeds == [] then x else Done(Replay(x, deeds[..|deeds| - 1]), deeds[|deeds| - 1])
  }

  /** The action a step takes on this order, if any. */
  function ActionOn(s: State, a: Step, id: OrderId): Option<Move> {
    if id !in s.orders then None
    else
      match a
      case VendorWrites(order, store, status) =>
        if order == id then Some(VendorSets(store, status, FulfilmentOf(s.orders, id))) else None
      case OnOrder(order, m) =>
        if order == id && !m.VendorSets? && !m.SweepMark? && !m.SweepRelease? then Some(m) else None
      case Sweep(sid) =>
        if sid in s.sessions && s.sessions[sid].Sweeping? && s.sessions[sid].pos < |s.sessions[sid].rows|
           && s.sessions[sid].rows[s.sessions[sid].pos] == id
        then Some(if s.sessions[sid].between then SweepRelease else SweepMark) else None
      case _ => None
  }

  /** Everything a run does to this order, in order. */
  function Deeds(s: State, steps: seq<Step>, id: OrderId): seq<Deed> {
    if steps == [] then []
    else
      var before := Run(s, steps[..|steps| - 1]);
      Deeds(s, steps[..|steps| - 1], id) +
      (match ActionOn(before, steps[|steps| - 1], id) case Some(m) => [Deed(m, before.now)] case None => [])
  }

  function At(s: State, id: OrderId): Stand
    requires id in s.orders
  {
    Stand(s.orders[id], HasHeld(s.ledger, id))
  }

  /** No statement here touches a pending credit. */
  ghost predicate Untouched(x: Stand, deeds: seq<Deed>) {
    forall j :: 0 <= j < |deeds| ==> LeavesCredit(x, deeds, j)
  }

  ghost predicate LeavesCredit(x: Stand, deeds: seq<Deed>, j: int)
    requires 0 <= j < |deeds|
  {
    var y := Replay(x, deeds[..j]);
    Act(y.order, deeds[j].move, deeds[j].at, y.held).fx.Keep?
  }

  // ---------- A run, seen from one order ----------

  lemma ApplyHeld(l: seq<Entry>, id: OrderId, fx: Effect)
    ensures HasHeld(Apply(l, id, fx), id) <==> HasHeld(l, id) && fx.Keep?
  {
    var r := Apply(l, id, fx);
    assert forall i :: 0 <= i < |l| ==> r[i] == Shift(l[i], id, fx);
    if HasHeld(l, id) && fx.Keep? {
      var i :| 0 <= i < |l| && l[i].order == Some(id) && l[i].status.Held?;
      assert r[i] == l[i];
    }
  }

  lemma ApplyElse(l: seq<Entry>, other: OrderId, fx: Effect, id: OrderId)
    requires other != id
    ensures HasHeld(Apply(l, other, fx), id) <==> HasHeld(l, id)
  {
    var r := Apply(l, other, fx);
    assert forall i :: 0 <= i < |l| ==> r[i] == Shift(l[i], other, fx);
    if HasHeld(l, id) {
      var i :| 0 <= i < |l| && l[i].order == Some(id) && l[i].status.Held?;
      assert r[i] == l[i];
    }
    if HasHeld(r, id) {
      var i :| 0 <= i < |r| && r[i].order == Some(id) && r[i].status.Held?;
      assert r[i] == l[i];
    }
  }

  lemma ActOnAt(s: State, id: OrderId, m: Move)
    requires id in s.orders
    ensures At(ActOn(s, id, m).state, id) == Done(At(s, id), Deed(m, s.now))
  {
    hide Act, Apply, HasHeld;
    ApplyHeld(s.ledger, id, Act(s.orders[id], m, s.now, HasHeld(s.ledger, id)).fx);
  }

  lemma ActElsewhere(s: State, other: OrderId, m: Move, id: OrderId)
    requires id in s.orders && other != id
    ensures id in ActOn(s, other, m).state.orders && At(ActOn(s, other, m).state, id) == At(s, id)
  {
    hide Act, Apply, HasHeld;
    if other in s.orders {
      ApplyElse(s.ledger, other, Act(s.orders[other], m, s.now, HasHeld(s.ledger, other)).fx, id);
    }
  }

  lemma AppendAt(s: State, e: Entry, id: OrderId)
    requires e.order != Some(id)
    ensures HasHeld(s.ledger + [e], id) <==> HasHeld(s.ledger, id)
  {
    var l := s.ledger + [e];
    if HasHeld(s.ledger, id) {
      var i :| 0 <= i < |s.ledger| && s.ledger[i].order == Some(id) && s.ledger[i].status.Held?;
      assert l[i] == s.ledger[i];
    }
  }

  lemma PayOneAt(s: State, ref: Ref, other: OrderId, lone: bool, id: OrderId)
    requires id in s.orders && !Unpaid(s.orders[id].status)
    ensures var t := PayOne(s, ref, other, lone); id in t.orders && At(t, id) == At(s, id)
  {
    hide RedeemAll, HasHeld;
    if AwaitsPayment(s.orders, other) {
      AppendAt(s, CreditRow(s.orders[other], other, ref, lone), id);
    }
  }

  lemma {:induction false} PayAllAt(s: State, ref: Ref, rows: seq<OrderId>, lone: bool, id: OrderId)
    requires id in s.orders && !Unpaid(s.orders[id].status)
    ensures var t := PayAll(s, ref, rows, lone); id in t.orders && At(t, id) == At(s, id)
    decreases |rows|
  {
    if rows != [] {
      PayOneAt(s, ref, rows[0], lone, id);
      hide PayOne;
      PayAllAt(PayOne(s, ref, rows[0], lone), ref, rows[1..], lone, id);
    }
  }

  lemma CommitAt(s: State, sid: SessionId, id: OrderId)
    requires id in s.orders && !Unpaid(s.orders[id].status)
    ensures At(CommitConfirmStep(s, sid).state, id) == At(s, id)
  {
    hide PayAll, HasHeld;
    if sid in s.sessions && s.sessions[sid].Confirming? {
      PayAllAt(Close(s, sid), s.sessions[sid].ref, s.sessions[sid].rows, s.sessions[sid].lone, id);
    }
  }

  lemma PlaceAt(s: State, sid: SessionId, ids: seq<OrderId>, id: OrderId)
    requires id in s.orders
    ensures id in PlaceOrdersStep(s, sid, ids).state.orders && At(PlaceOrdersStep(s, sid, ids).state, id) == At(s, id)
  {
    hide HasHeld;
    if PlaceOrdersStep(s, sid, ids).reply.Ok? {
      InsertedRows(s.orders, s.sessions[sid].req, ids, s.now);
      hide InsertOrders, Insertable, FreshIds;
    }
  }

  lemma MoneyAt(s: State, a: Step, id: OrderId)
    requires id in s.orders && (a.PayOut? || a.Deposit?)
    ensures id in Next(s, a).state.orders && At(Next(s, a).state, id) == At(s, id)
  {
    hide HasHeld, Total;
    match a
    case PayOut(store, amount, token) =>
      AppendAt(s, Entry(store, Debit, amount, "WD_" + token, None, Completed, false), id);
    case Deposit(store, amount, reference) =>
      AppendAt(s, Entry(store, Credit, amount, reference, None, Completed, false), id);
  }

  lemma SweepAt(s: State, sid: SessionId, id: OrderId)
    requires id in s.orders
    ensures At(SweepStep(s, sid).state, id) ==
            Moved(At(s, id), ActionOn(s, Sweep(sid), id), s.now)
  {
    hide ActOn, Act, HasHeld;
    if sid in s.sessions && s.sessions[sid].Sweeping? && s.sessions[sid].pos < |s.sessions[sid].rows| {
      var w := s.sessions[sid];
      var m := if w.between then SweepRelease else SweepMark;
      if w.rows[w.pos] == id { ActOnAt(s, id, m); } else { ActElsewhere(s, w.rows[w.pos], m, id); }
    }
  }

  lemma VendorAt(s: State, order: OrderId, store: StoreId, status: OrderStatus, id: OrderId)
    requires id in s.orders
    ensures At(VendorWritesStep(s, order, store, status).state, id) ==
            if order == id then Done(At(s, id), Deed(VendorSets(store, status, FulfilmentOf(s.orders, id)), s.now))
            else At(s, id)
  {
    hide ActOn, Act, HasHeld, FulfilmentOf;
    if order == id {
      ActOnAt(s, id, VendorSets(store, status, FulfilmentOf(s.orders, id)));
    } else if order in s.orders {
      ActElsewhere(s, order, VendorSets(store, status, FulfilmentOf(s.orders, order)), id);
    }
  }

  /** The stand an action, or none, leads to. */
  function Moved(x: Stand, m: Option<Move>, at: int): Stand {
    match m
    case Some(move) => Done(x, Deed(move, at))
    case None => x
  }

  lemma OrderStepAt(s: State, a: Step, id: OrderId)
    requires id in s.orders && (a.VendorWrites? || a.OnOrder? || a.Sweep?)
    ensures id in Next(s, a).state.orders && At(Next(s, a).state, id) == Moved(At(s, id), ActionOn(s, a, id), s.now)
  {
    hide HasHeld, Done, VendorWritesStep, ActOn, SweepStep, FulfilmentOf;
    match a
    case VendorWrites(order, store, status) => VendorAt(s, order, store, status, id);
    case OnOrder(order, m) => if order == id { ActOnAt(s, id, m); } else { ActElsewhere(s, order, m, id); }
    case Sweep(sid) => SweepAt(s, sid, id);
  }

  lemma OtherStepAt(s: State, a: Step, id: OrderId)
    requires id in s.orders && !Unpaid(s.orders[id].status)
    requires a.PlaceOrders? || a.CommitConfirm? || a.MarkAbandoned?
    ensures id in Next(s, a).state.orders && At(Next(s, a).state, id) == At(s, id)
  {
    hide HasHeld, PlaceOrdersStep, CommitConfirmStep;
    match a
    case PlaceOrders(sid, ids) => PlaceAt(s, sid, ids, id);
    case CommitConfirm(sid) => CommitAt(s, sid, id);
    case MarkAbandoned =>
  }

  /** One step, seen from an order that has been paid for: its action on it, or nothing. */
  lemma StepAt(s: State, a: Step, id: OrderId)
    requires id in s.orders && !Unpaid(s.orders[id].status)
    ensures id in Next(s, a).state.orders && At(Next(s, a).state, id) == Moved(At(s, id), ActionOn(s, a, id), s.now)
  {
    hide Next, Done, HasHeld;
    if a.VendorWrites? || a.OnOrder? || a.Sweep? {
      OrderStepAt(s, a, id);
    } else if Elsewhere(a) {
      QuietRows(s, a);
    } else if a.PayOut? || a.Deposit? {
      MoneyAt(s, a, id);
    } else {
      OtherStepAt(s, a, id);
    }
  }

  lemma DoneStaysPaid(x: Stand, d: Deed)
    ensures !Unpaid(x.order.status) ==> !Unpaid(Done(x, d).order.status)
  {
    ActFollows(x.order, d.move, d.at, x.held);
  }

  lemma RunLast(s: State, steps: seq<Step>)
    requires steps != []
    ensures Run(s, steps) == Next(Run(s, steps[..|steps| - 1]), steps[|steps| - 1]).state
  {
    var n := |steps| - 1;
    assert steps == steps[..n] + [steps[n]];
    RunAppend(s, steps[..n], [steps[n]]);
    var last := Next(Run(s, steps[..n]), steps[n]).state;
    assert [steps[n]][1..] == [] && Run(last, []) == last;
  }

  /** A run takes an order exactly where its deeds take it. */
  lemma {:induction false} RunAt(s: State, steps: seq<Step>, id: OrderId)
    requires id in s.orders && !Unpaid(s.orders[id].status)
    ensures var t := Run(s, steps);
            && id in t.orders && !Unpaid(t.orders[id].status)
            && At(t, id) == Replay(At(s, id), Deeds(s, steps, id))
    decreases |steps|
  {
    if steps != [] {
      var before, a := Run(s, steps[..|steps| - 1]), steps[|steps| - 1];
      RunAt(s, steps[..|steps| - 1], id);
      RunLast(s, steps);
      StepAt(before, a, id);
      var deeds := Deeds(s, steps[..|steps| - 1], id);
      hide Run, Next, At, Done, ActionOn;
      match ActionOn(before, a, id) {
        case Some(m) =>
          var d := Deed(m, before.now);
          assert Deeds(s, steps, id) == deeds + [d];
          assert (deeds + [d])[..|deeds|] == deeds;
          DoneStaysPaid(Replay(At(s, id), deeds), d);
          SameOrder(Run(s, steps), id, Done(Replay(At(s, id), deeds), d));
          SameOrder(before, id, Replay(At(s, id), deeds));
        case None =>
          assert Deeds(s, steps, id) == deeds;
          SameOrder(Run(s, steps), id, Replay(At(s, id), deeds));
          SameOrder(before, id, Replay(At(s, id), deeds));
      }
    } else {
      assert Run(s, steps) == s;
    }
  }

  lemma SameOrder(t: State, id: OrderId, x: Stand)
    requires id in t.orders && At(t, id) == x
    ensures t.orders[id] == x.order
  {
  }

  // ---------- What the deeds amount to ----------

  /** The credit is pending in the end if it was at first and nothing released or voided it. */
  lemma {:induction false} HeldThroughout(x: Stand, deeds: seq<Deed>)
    ensures Replay(x, deeds).held <==> x.held && Untouched(x, deeds)
    decreases |deeds|
  {
    if deeds != [] {
      var n := |deeds| - 1;
      var front := deeds[..n];
      HeldThroughout(x, front);
      hide Act;
      forall j | 0 <= j < n ensures LeavesCredit(x, deeds, j) <==> LeavesCredit(x, front, j) {
        assert front[..j] == deeds[..j];
      }
      assert LeavesCredit(x, deeds, n) <==>
             Act(Replay(x, front).order, deeds[n].move, deeds[n].at, Replay(x, front).held).fx.Keep?;
      if Untouched(x, deeds) {
        assert forall j :: 0 <= j < n ==> LeavesCredit(x, front, j);
      }
      if Untouched(x, front) && LeavesCredit(x, deeds, n) {
        forall j | 0 <= j < |deeds| ensures LeavesCredit(x, deeds, j) {
          if j < n { assert LeavesCredit(x, front, j); }
        }
      }
    }
  }

  /** A vendor write the code accepts, or a dispatch from the hub: either sets the status whatever
      it was. */
  predicate Rewrites(o: Order, m: Move) {
    m.Ship? || (m.VendorSets? && m.store == o.store && VendorMaySet(m.carrier, o.isPickup, m.status))
  }

  function Written(m: Move): OrderStatus {
    if m.VendorSets? then m.status else Shipped
  }

  /** Where the last such write is, or -1. */
  function LastRewrite(o: Order, deeds: seq<Deed>): (j: int)
    ensures -1 <= j < |deeds|
    ensures j >= 0 ==> Rewrites(o, deeds[j].move)
    ensures forall k :: j < k < |deeds| ==> !Rewrites(o, deeds[k].move)
  {
    if deeds == [] then -1
    else if Rewrites(o, deeds[|deeds| - 1].move) then |deeds| - 1
    else LastRewrite(o, deeds[..|deeds| - 1])
  }

  predicate MarkAfter(deeds: seq<Deed>, j: int) {
    exists k :: 0 <= k < |deeds| && j < k && deeds[k].move.SweepMark?
  }

  /** Somebody wrote the status, and the last to do so either wrote another one than shipped or
      wrote after every mark of a sweep. */
  predicate LeftTheRoad(o: Order, deeds: seq<Deed>) {
    var j := LastRewrite(o, deeds);
    j >= 0 && (!Written(deeds[j].move).Shipped? || !MarkAfter(deeds, j))
  }

  lemma DoneStatus(o: Order, x: Stand, d: Deed)
    requires x.order.store == o.store && x.order.isPickup == o.isPickup && Done(x, d).held
    ensures var y := Done(x, d).order;
            && (Rewrites(o, d.move) ==> y.status == Written(d.move))
            && (d.move.SweepMark? ==> y.status == if x.order.status.Shipped? then Delivered else x.order.status)
            && (!Rewrites(o, d.move) && !d.move.SweepMark? ==>
                  y.status == x.order.status || (x.order.status.Confirmed? && y.status.AtHub?))
  {
  }

  lemma {:induction false} ReplaySame(x: Stand, deeds: seq<Deed>)
    ensures Replay(x, deeds).order.store == x.order.store && Replay(x, deeds).order.isPickup == x.order.isPickup
    ensures Replay(x, deeds).order.email == x.order.email
    decreases |deeds|
  {
    if deeds != [] {
      var n := |deeds| - 1;
      ReplaySame(x, deeds[..n]);
      var y := Replay(x, deeds[..n]);
      ActFollows(y.order, deeds[n].move, deeds[n].at, y.held);
    }
  }

  lemma MarkAfterLast(deeds: seq<Deed>, j: int)
    requires deeds != [] && j < |deeds| - 1
    ensures MarkAfter(deeds, j) <==> deeds[|deeds| - 1].move.SweepMark? || MarkAfter(deeds[..|deeds| - 1], j)
  {
    var n := |deeds| - 1;
    if MarkAfter(deeds[..n], j) {
      var k :| 0 <= k < n && j < k && deeds[..n][k].move.SweepMark?;
      assert deeds[k].move.SweepMark?;
    }
    if MarkAfter(deeds, j) && !deeds[n].move.SweepMark? {
      var k :| 0 <= k < |deeds| && j < k && deeds[k].move.SweepMark?;
      assert deeds[..n][k].move.SweepMark?;
    }
  }

  /** While its credit is pending, a shipped order's status follows from its last write and the
      marks after it. */
  lemma {:induction false} StatusFollows(x: Stand, deeds: seq<Deed>)
    requires x.order.status.Shipped? && Replay(x, deeds).held
    ensures var j := LastRewrite(x.order, deeds);
            var status := Replay(x, deeds).order.status;
            if j >= 0 && !Written(deeds[j].move).Shipped? then !status.Shipped? && !status.Delivered?
            else status == if MarkAfter(deeds, j) then Delivered else Shipped
    decreases |deeds|
  {
    if deeds != [] {
      var n := |deeds| - 1;
      var y, d := Replay(x, deeds[..n]), deeds[n];
      assert Done(y, d) == Replay(x, deeds);
      StatusFollows(x, deeds[..n]);
      ReplaySame(x, deeds[..n]);
      DoneStatus(x.order, y, d);
      hide Replay, Done;
      var j := LastRewrite(x.order, deeds);
      if Rewrites(x.order, d.move) {
        assert j == n;
        assert !MarkAfter(deeds, n);
        assert d.move.VendorSets? ==> !Written(d.move).Delivered?;
      } else {
        assert j == LastRewrite(x.order, deeds[..n]);
        MarkAfterLast(deeds, j);
        hide Rewrites, LastRewrite, MarkAfter;
      }
    }
  }

  /** A buyer's report that opens a dispute. */
  predicate Opens(x: Stand, d: Deed) {
    && d.move.ReportMissing? && d.move.email == x.order.email
    && (x.order.status.Shipped? || x.order.status.Delivered?) && x.order.dispute.Undisputed?
  }

  ghost predicate OpenedAt(x: Stand, deeds: seq<Deed>, j: int)
    requires 0 <= j < |deeds|
  {
    Opens(Replay(x, deeds[..j]), deeds[j])
  }

  /** The buyer opened a dispute, and nobody has dismissed one since. */
  ghost predicate InDispute(x: Stand, deeds: seq<Deed>) {
    exists j :: && 0 <= j < |deeds| && OpenedAt(x, deeds, j)
                && forall k :: j < k < |deeds| ==> !deeds[k].move.DismissDispute?
  }

  lemma DoneDispute(x: Stand, d: Deed)
    requires Done(x, d).held
    ensures Done(x, d).order.dispute.Reported? <==>
            Opens(x, d) || (x.order.dispute.Reported? && !d.move.DismissDispute?)
  {
  }

  lemma {:induction false} DisputeFollows(x: Stand, deeds: seq<Deed>)
    requires !x.order.dispute.Reported? && Replay(x, deeds).held
    ensures Replay(x, deeds).order.dispute.Reported? <==> InDispute(x, deeds)
    decreases |deeds|
  {
    if deeds != [] {
      var n := |deeds| - 1;
      var front, y, d := deeds[..n], Replay(x, deeds[..n]), deeds[n];
      assert Done(y, d) == Replay(x, deeds);
      DoneDispute(y, d);
      DisputeFollows(x, front);
      assert OpenedAt(x, deeds, n) <==> Opens(y, d);
      hide Replay, Done, Opens, OpenedAt;
      LaterDismissal(x, deeds);
      hide InDispute;
    }
  }

  lemma LaterDismissal(x: Stand, deeds: seq<Deed>)
    requires deeds != []
    ensures var n := |deeds| - 1;
            InDispute(x, deeds) <==>
              OpenedAt(x, deeds, n) || (InDispute(x, deeds[..n]) && !deeds[n].move.DismissDispute?)
  {
    hide Replay, Opens;
    var n := |deeds| - 1;
    var front := deeds[..n];
    forall j | 0 <= j < n ensures OpenedAt(x, deeds, j) <==> OpenedAt(x, front, j) {
      assert front[..j] == deeds[..j];
    }
    hide OpenedAt;
    if InDispute(x, front) && !deeds[n].move.DismissDispute? {
      var j :| 0 <= j < n && OpenedAt(x, front, j) && forall k :: j < k < n ==> !front[k].move.DismissDispute?;
      assert OpenedAt(x, deeds, j);
      forall k | j < k < |deeds| ensures !deeds[k].move.DismissDispute? {
        if k < n { assert front[k] == deeds[k]; }
      }
    }
    if InDispute(x, deeds) {
      var j :| 0 <= j <= n && OpenedAt(x, deeds, j) && forall k :: j < k <= n ==> !deeds[k].move.DismissDispute?;
      if j < n {
        assert OpenedAt(x, front, j);
        forall k | j < k < n ensures !front[k].move.DismissDispute? {
          assert front[k] == deeds[k];
        }
      }
    }
  }

  // ---------- The races ----------

  /** The sweep's next statement pays this order's credit out. */
  ghost predicate Pays(s: State, sid: SessionId, id: OrderId) {
    var after := Next(s, Sweep(sid)).state.ledger;
    exists k :: 0 <= k < |s.ledger| && |after| == |s.ledger| && s.ledger[k].order == Some(id)
                && s.ledger[k].status.Held? && after[k].status.Completed?
  }

  lemma ReleaseIs(s: State, sid: SessionId, id: OrderId)
    requires id in s.orders && Between(s.sessions, sid, id)
    ensures Next(s, Sweep(sid)).state.ledger == Apply(s.ledger, id, Release)
  {
    hide Apply, HasHeld;
  }

  lemma ReleasePays(s: State, sid: SessionId, id: OrderId)
    requires id in s.orders && Between(s.sessions, sid, id)
    ensures Pays(s, sid, id) <==> HasHeld(s.ledger, id)
  {
    ReleaseIs(s, sid, id);
    hide Next;
    var after := Apply(s.ledger, id, Release);
    assert forall i :: 0 <= i < |s.ledger| ==> after[i] == Shift(s.ledger[i], id, Release);
    if HasHeld(s.ledger, id) {
      var k :| 0 <= k < |s.ledger| && s.ledger[k].order == Some(id) && s.ledger[k].status.Held?;
      assert after[k].status.Completed?;
    }
  }

  lemma MarkedBySweep(s: State, other: SessionId, sid: SessionId, id: OrderId)
    requires !Between(s.sessions, sid, id) && Between(SweepStep(s, other).state.sessions, sid, id)
    ensures other == sid && sid in s.sessions && s.sessions[sid].Sweeping? && !s.sessions[sid].between
    ensures s.sessions[sid].pos < |s.sessions[sid].rows| && s.sessions[sid].rows[s.sessions[sid].pos] == id
  {
    hide ActOn;
  }

  /** The calls in flight after a step that does not come between a sweep's two statements: as they
      were, but for one that opened, moved on or closed. */
  ghost predicate NoneBetween(before: map<SessionId, Session>, after: map<SessionId, Session>) {
    forall sid :: sid in after && after[sid].Sweeping? && after[sid].between
        ==> sid in before && after[sid] == before[sid]
  }

  lemma CheckoutOpens(s: State, sid: SessionId, req: Checkout)
    ensures NoneBetween(s.sessions, BeginCheckoutStep(s, sid, req).state.sessions)
  {
    hide ValidRequest;
  }

  lemma ConfirmOpens(s: State, sid: SessionId, ref: Ref, rows: seq<OrderId>)
    ensures NoneBetween(s.sessions, BeginConfirmStep(s, sid, ref, rows).state.sessions)
  {
    hide SumTotals, AwaitsPayment, RowsOf;
  }

  lemma SweepOpens(s: State, sid: SessionId, rows: seq<OrderId>)
    ensures NoneBetween(s.sessions, BeginSweepStep(s, sid, rows).state.sessions)
  {
    hide DueRows;
  }

  lemma CheckoutCalls(s: State, sid: SessionId, ids: seq<OrderId>)
    ensures NoneBetween(s.sessions, PriceLineStep(s, sid).state.sessions)
    ensures NoneBetween(s.sessions, PlaceOrdersStep(s, sid, ids).state.sessions)
  {
    hide CheckLine, Insertable, InsertOrders, FreshIds, RowsOf;
  }

  lemma BetweenCalls(s: State, a: Step, sid: SessionId, id: OrderId)
    requires a.BeginSweep? || a.BeginCheckout? || a.PriceLine? || a.BeginConfirm? || a.PlaceOrders?
    requires Between(Next(s, a).state.sessions, sid, id)
    ensures Between(s.sessions, sid, id)
  {
    hide BeginSweepStep, BeginCheckoutStep, PriceLineStep, BeginConfirmStep, PlaceOrdersStep, NoneBetween;
    match a {
      case BeginSweep(other, rows) => SweepOpens(s, other, rows);
      case BeginCheckout(other, req) => CheckoutOpens(s, other, req);
      case PriceLine(other) => CheckoutCalls(s, other, []);
      case BeginConfirm(other, ref, rows) => ConfirmOpens(s, other, ref, rows);
      case PlaceOrders(other, ids) => CheckoutCalls(s, other, ids);
    }
    var after := Next(s, a).state.sessions;
    assert NoneBetween(s.sessions, after);
    hide Next;
    NotBetween(s.sessions, after, sid, id);
  }

  lemma NotBetween(before: map<SessionId, Session>, after: map<SessionId, Session>, sid: SessionId, id: OrderId)
    requires NoneBetween(before, after) && Between(after, sid, id)
    ensures Between(before, sid, id)
  {
  }

  /** Only a sweep's own mark puts it between its two statements. */
  lemma MarkedNow(s: State, a: Step, sid: SessionId, id: OrderId)
    requires id in s.orders && !Between(s.sessions, sid, id) && Between(Next(s, a).state.sessions, sid, id)
    ensures ActionOn(s, a, id) == Some(SweepMark)
  {
    if a.Sweep? {
      OrderStepIs(s, a);
      hide Next;
      MarkedBySweep(s, a.sid, sid, id);
    } else if a.CommitConfirm? {
      hide CommitConfirmStep, Between;
      CommitBetween(s, a.sid, sid, id);
    } else {
      hide Next, Between;
      if a.BeginCheckout? || a.PriceLine? || a.PlaceOrders? || a.BeginConfirm? || a.BeginSweep? {
        BetweenCalls(s, a, sid, id);
      } else {
        OtherSessions(s, a);
      }
    }
  }

  lemma CommitBetween(s: State, other: SessionId, sid: SessionId, id: OrderId)
    ensures Between(CommitConfirmStep(s, other).state.sessions, sid, id) ==> Between(s.sessions, sid, id)
  {
    hide PayAll;
  }

  lemma {:induction false} MarkHappens(s: State, steps: seq<Step>, sid: SessionId, id: OrderId)
    requires id in s.orders && !Unpaid(s.orders[id].status)
    requires !Between(s.sessions, sid, id) && Between(Run(s, steps).sessions, sid, id)
    ensures MarkAfter(Deeds(s, steps, id), -1)
    decreases |steps|
  {
    if steps != [] {
      var n := |steps| - 1;
      var before, deeds := Run(s, steps[..n]), Deeds(s, steps[..n], id);
      var all := Deeds(s, steps, id);
      RunLast(s, steps);
      RunAt(s, steps[..n], id);
      if Between(before.sessions, sid, id) {
        MarkHappens(s, steps[..n], sid, id);
        hide Between, Run, Next, ActionOn;
        var k :| 0 <= k < |deeds| && deeds[k].move.SweepMark?;
        assert all[k] == deeds[k];
      } else {
        MarkedNow(before, steps[n], sid, id);
        hide Between, Run, Next, ActionOn;
        assert all[|deeds|] == Deed(SweepMark, before.now);
      }
    }
  }

  /** The first race. Take any run from the moment a sweep has read a shipped order to the moment
      it has marked it and is about to release it. Its release pays an order that is not
      delivered if and only if the credit was pending when the sweep read, nothing has released
      or voided it since, and somebody wrote the status in between: the last such write was to
      something other than shipped, or it came after the mark. */
  lemma {:induction false} SweepPaysUndelivered(s: State, steps: seq<Step>, sid: SessionId, id: OrderId)
    requires id in s.orders && s.orders[id].status.Shipped? && !Between(s.sessions, sid, id)
    requires Between(Run(s, steps).sessions, sid, id)
    ensures var t := Run(s, steps);
            var deeds := Deeds(s, steps, id);
            && id in t.orders
            && (Pays(t, sid, id) && !t.orders[id].status.Delivered? <==>
                HasHeld(s.ledger, id) && Untouched(At(s, id), deeds) && LeftTheRoad(s.orders[id], deeds))
  {
    var x, t, deeds := At(s, id), Run(s, steps), Deeds(s, steps, id);
    RunAt(s, steps, id);
    SameOrder(t, id, Replay(x, deeds));
    ReleasePays(t, sid, id);
    HeldThroughout(x, deeds);
    MarkHappens(s, steps, sid, id);
    hide Run, Deeds, Pays, Between, Replay, Untouched;
    if Replay(x, deeds).held { StatusFollows(x, deeds); }
  }

  /** The second race: the release pays an order in open dispute if and only if the credit was
      pending when the sweep read and has not been touched since, and the buyer opened the
      dispute after the read with nobody dismissing it. */
  lemma {:induction false} SweepPaysDisputed(s: State, steps: seq<Step>, sid: SessionId, id: OrderId)
    requires id in s.orders && s.orders[id].status.Shipped? && !s.orders[id].dispute.Reported?
    requires Between(Run(s, steps).sessions, sid, id)
    ensures var t := Run(s, steps);
            var deeds := Deeds(s, steps, id);
            && id in t.orders
            && (Pays(t, sid, id) && t.orders[id].dispute.Reported? <==>
                HasHeld(s.ledger, id) && Untouched(At(s, id), deeds) && InDispute(At(s, id), deeds))
  {
    var x, t, deeds := At(s, id), Run(s, steps), Deeds(s, steps, id);
    RunAt(s, steps, id);
    SameOrder(t, id, Replay(x, deeds));
    ReleasePays(t, sid, id);
    HeldThroughout(x, deeds);
    hide Run, Deeds, Pays, Between, Replay, Untouched, InDispute;
    if Replay(x, deeds).held { DisputeFollows(x, deeds); }
  }
}
