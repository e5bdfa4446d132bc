/** Racing confirmations of one reference while the rest of the marketplace goes about its
    business: seen from the reference, it is as if nobody else were there. */
module Bystanders {
  import opened Base
  import opened Ledger
  import opened Orders
  import opened Market
  import opened Tables
  import opened Escrow
  import opened Confluence
  import opened Frames
  import opened SweepRaces

  // ---------- The part of the marketplace that is the reference's ----------

  /** A ledger row under a credit reference of one of these orders. */
  predicate Concerns(ref: Ref, rows: seq<OrderId>, reference: string) {
    exists i :: 0 <= i < |rows| && reference == CreditRef(ref, rows[i])
  }

  function PartLedger(ref: Ref, rows: seq<OrderId>, l: seq<Entry>): seq<Entry> {
    if l == [] then []
    else
      PartLedger(ref, rows, l[..|l| - 1])
      + (if Concerns(ref, rows, l[|l| - 1].reference) then [l[|l| - 1]] else [])
  }

  function PartOrders(rows: seq<OrderId>, orders: map<OrderId, Order>): map<OrderId, Order> {
    map id | id in orders && id in rows :: orders[id]
  }

  function PartSessions(ref: Ref, sessions: map<SessionId, Session>): map<SessionId, Session> {
    map sid | sid in sessions && sessions[sid].Confirming? && sessions[sid].ref == ref :: sessions[sid]
  }

  function Part(s: State, ref: Ref, rows: seq<OrderId>): State {
    State(s.now, map[], map[], PartOrders(rows, s.orders), map[ref := rows], PartLedger(ref, rows, s.ledger),
          if ref in s.charges then map[ref := s.charges[ref]] else map[], PartSessions(ref, s.sessions))
  }

  /** A step that stays off the reference, but for confirming it, giving it up, and time passing:
      no action on its orders, no new order and no charge on it, and no deposit or payout under one
      of its credit references. */
  ghost predicate Bystands(s: State, a: Step, ref: Ref, rows: seq<OrderId>) {
    && (forall id :: id in rows ==> ActionOn(s, a, id).None?)
    && (a.PlaceOrders? && a.sid in s.sessions && s.sessions[a.sid].Pricing? ==> s.sessions[a.sid].req.ref != ref)
    && (a.Charge? ==> a.ref != ref)
    && (a.Deposit? ==> !Concerns(ref, rows, a.reference))
    && (a.PayOut? ==> !Concerns(ref, rows, "WD_" + a.token))
  }

  ghost predicate BystandRun(s: State, steps: seq<Step>, ref: Ref, rows: seq<OrderId>)
    decreases |steps|
  {
    steps != [] ==> Bystands(s, steps[0], ref, rows) && BystandRun(Next(s, steps[0]).state, steps[1..], ref, rows)
  }

  /** The step is one of the reference's own. */
  predicate OwnStep(s: State, a: Step, ref: Ref) {
    || a.Tick? || a.MarkAbandoned?
    || (a.BeginConfirm? && a.ref == ref && Next(s, a).reply.Ok?)
    || (a.CommitConfirm? && a.sid in s.sessions && s.sessions[a.sid].Confirming? && s.sessions[a.sid].ref == ref)
  }

  /** The run, as the reference sees it. */
  function Seen(s: State, steps: seq<Step>, ref: Ref): seq<Step>
    decreases |steps|
  {
    if steps == [] then []
    else (if OwnStep(s, steps[0], ref) then [steps[0]] else []) + Seen(Next(s, steps[0]).state, steps[1..], ref)
  }

  /** Some confirmation of the reference has committed. */
  predicate CommittedOn(s: State, steps: seq<Step>, ref: Ref)
    decreases |steps|
  {
    steps != [] &&
    ((steps[0].CommitConfirm? && OwnStep(s, steps[0], ref)) || CommittedOn(Next(s, steps[0]).state, steps[1..], ref))
  }

  // ---------- The ledger ----------

  lemma PartAppend(ref: Ref, rows: seq<OrderId>, l: seq<Entry>, e: Entry)
    ensures PartLedger(ref, rows, l + [e]) ==
            PartLedger(ref, rows, l) + (if Concerns(ref, rows, e.reference) then [e] else [])
  {
    assert (l + [e])[..|l|] == l;
  }

  lemma {:induction false} PartTaken(ref: Ref, rows: seq<OrderId>, l: seq<Entry>, reference: string)
    requires Concerns(ref, rows, reference)
    ensures Taken(PartLedger(ref, rows, l), reference) <==> Taken(l, reference)
    decreases |l|
  {
    hide Concerns;
    if l != [] {
      var n := |l| - 1;
      var front, back := PartLedger(ref, rows, l[..n]), l[n];
      PartTaken(ref, rows, l[..n], reference);
      assert l == l[..n] + [back];
      TakenAppend(l[..n], back, reference);
      TakenAppend(front, back, reference);
      assert PartLedger(ref, rows, l) == if Concerns(ref, rows, back.reference) then front + [back] else front;
      hide Taken, PartLedger;
    }
  }

  lemma TakenAppend(l: seq<Entry>, e: Entry, reference: string)
    ensures Taken(l + [e], reference) <==> Taken(l, reference) || e.reference == reference
  {
    if Taken(l, reference) {
      var i :| 0 <= i < |l| && l[i].reference == reference;
      assert (l + [e])[i].reference == reference;
    }
    assert (l + [e])[|l|] == e;
  }

  lemma PartInsert(ref: Ref, rows: seq<OrderId>, l: seq<Entry>, e: Entry)
    ensures PartLedger(ref, rows, Insert(l, e)) ==
            if Concerns(ref, rows, e.reference) then Insert(PartLedger(ref, rows, l), e) else PartLedger(ref, rows, l)
  {
    PartAppend(ref, rows, l, e);
    if Concerns(ref, rows, e.reference) { PartTaken(ref, rows, l, e.reference); }
    hide PartLedger, Concerns, Taken;
  }

  lemma ApplyLast(l: seq<Entry>, id: OrderId, fx: Effect)
    requires l != []
    ensures Apply(l, id, fx)[..|l| - 1] == Apply(l[..|l| - 1], id, fx)
    ensures Apply(l, id, fx)[|l| - 1] == Shift(l[|l| - 1], id, fx)
  {
    hide Apply, Shift;
    var n := |l| - 1;
    var x, y := Apply(l, id, fx)[..n], Apply(l[..n], id, fx);
    assert forall i :: 0 <= i < n ==> x[i] == Shift(l[i], id, fx) && y[i] == Shift(l[i], id, fx);
    assert x == y;
  }

  /** Updates of rows that do not concern the reference do not show. */
  lemma {:induction false} PartApply(ref: Ref, rows: seq<OrderId>, l: seq<Entry>, id: OrderId, fx: Effect)
    requires forall i :: 0 <= i < |l| && l[i].order == Some(id) ==> !Concerns(ref, rows, l[i].reference)
    ensures PartLedger(ref, rows, Apply(l, id, fx)) == PartLedger(ref, rows, l)
    decreases |l|
  {
    hide *;
    if l != [] {
      var n := |l| - 1;
      ApplyLast(l, id, fx);
      PartApply(ref, rows, l[..n], id, fx);
      PartLast(ref, rows, l);
      PartLast(ref, rows, Apply(l, id, fx));
      ShiftKeeps(l[n], id, fx);
    }
  }

  lemma PartLast(ref: Ref, rows: seq<OrderId>, l: seq<Entry>)
    requires l != []
    ensures var n := |l| - 1;
            PartLedger(ref, rows, l)
            == PartLedger(ref, rows, l[..n]) + (if Concerns(ref, rows, l[n].reference) then [l[n]] else [])
  {
    hide Concerns;
  }

  lemma ShiftKeeps(e: Entry, id: OrderId, fx: Effect)
    ensures Shift(e, id, fx).reference == e.reference
    ensures e.order != Some(id) ==> Shift(e, id, fx) == e
  {
  }

  /** The credits of other orders are under other references. */
  lemma OthersCredit(s: State, ref: Ref, rows: seq<OrderId>, id: OrderId)
    requires RowsOk(s.orders, s.index, s.ledger) && RowsOf(s.index, ref) == rows && id in s.orders && id !in rows
    ensures !Concerns(ref, rows, CreditRef(s.orders[id].ref, id))
    ensures forall i :: 0 <= i < |s.ledger| && s.ledger[i].order == Some(id) ==>
              !Concerns(ref, rows, s.ledger[i].reference)
  {
    assert s.orders[id].ref == ref ==> id in rows;
    NotConcerned(ref, rows, s.orders[id].ref, id);
    hide CreditRef, Concerns;
    forall i | 0 <= i < |s.ledger| && s.ledger[i].order == Some(id)
      ensures !Concerns(ref, rows, s.ledger[i].reference)
    {
      assert OwnCredit(s.ledger[i], s.orders);
    }
  }

  lemma NotConcerned(ref: Ref, rows: seq<OrderId>, other: Ref, id: OrderId)
    requires other != ref
    ensures !Concerns(ref, rows, CreditRef(other, id))
  {
    forall i | 0 <= i < |rows| ensures CreditRef(other, id) != CreditRef(ref, rows[i]) {
      if CreditRef(other, id) == CreditRef(ref, rows[i]) { CreditRefInjective(other, id, ref, rows[i]); }
    }
  }

  // ---------- Steps of others ----------

  lemma ActPart(s: State, id: OrderId, m: Move, ref: Ref, rows: seq<OrderId>)
    requires RowsOk(s.orders, s.index, s.ledger) && RowsOf(s.index, ref) == rows && id !in rows
    ensures Part(ActOn(s, id, m).state, ref, rows) == Part(s, ref, rows)
  {
    if id in s.orders {
      var r := Act(s.orders[id], m, s.now, HasHeld(s.ledger, id));
      hide *;
      OthersCredit(s, ref, rows, id);
      ActOnIs(s, id, m);
      PartApply(ref, rows, s.ledger, id, r.fx);
      PartOther(rows, s.orders, id, r.order);
      PartSame(s, ActOn(s, id, m).state, ref, rows);
    }
  }

  lemma PartOther(rows: seq<OrderId>, orders: map<OrderId, Order>, id: OrderId, o: Order)
    requires id in orders && id !in rows
    ensures PartOrders(rows, orders[id := o]) == PartOrders(rows, orders)
  {
  }

  /** The part is made of these. */
  lemma PartSame(s: State, t: State, ref: Ref, rows: seq<OrderId>)
    requires t.now == s.now && PartOrders(rows, t.orders) == PartOrders(rows, s.orders)
    requires PartLedger(ref, rows, t.ledger) == PartLedger(ref, rows, s.ledger)
    requires PartSessions(ref, t.sessions) == PartSessions(ref, s.sessions)
    requires (ref in t.charges <==> ref in s.charges) && (ref in s.charges ==> t.charges[ref] == s.charges[ref])
    ensures Part(t, ref, rows) == Part(s, ref, rows)
  {
    hide PartOrders, PartLedger, PartSessions;
  }

  lemma SweepPart(s: State, sid: SessionId, ref: Ref, rows: seq<OrderId>)
    requires RowsOk(s.orders, s.index, s.ledger) && RowsOf(s.index, ref) == rows
    requires forall id :: id in rows ==> ActionOn(s, Sweep(sid), id).None?
    ensures Part(SweepStep(s, sid).state, ref, rows) == Part(s, ref, rows)
  {
    hide *;
    var t := SweepStep(s, sid).state;
    OwnThere(s, ref, rows);
    SweepConfirms(s, sid);
    SessionsAlike(s.sessions, t.sessions, ref);
    if t.orders == s.orders && t.ledger == s.ledger {
      PartSame(s, t, ref, rows);
    } else {
      var id, m := SweepWrites(s, sid);
      ActPart(s, id, m, ref, rows);
      PartGives(ActOn(s, id, m).state, s, ref, rows);
      PartSame(s, t, ref, rows);
    }
  }

  /** The order a turn of the sweep writes. */
  lemma SweepWrites(s: State, sid: SessionId) returns (id: OrderId, m: Move)
    requires SweepStep(s, sid).state.orders != s.orders || SweepStep(s, sid).state.ledger != s.ledger
    ensures id in s.orders && ActionOn(s, Sweep(sid), id).Some?
    ensures SweepStep(s, sid).state.ledger == ActOn(s, id, m).state.ledger
    ensures SweepStep(s, sid).state.orders == ActOn(s, id, m).state.orders
  {
    hide Act, HasHeld, Apply;
    var w := s.sessions[sid];
    id, m := w.rows[w.pos], if w.between then SweepRelease else SweepMark;
  }

  lemma OwnThere(s: State, ref: Ref, rows: seq<OrderId>)
    requires RowsOk(s.orders, s.index, s.ledger) && RowsOf(s.index, ref) == rows
    ensures forall id :: id in rows ==> id in s.orders && s.orders[id].ref == ref
  {
  }

  lemma PartGives(s: State, t: State, ref: Ref, rows: seq<OrderId>)
    requires Part(s, ref, rows) == Part(t, ref, rows)
    ensures PartOrders(rows, s.orders) == PartOrders(rows, t.orders)
    ensures PartLedger(ref, rows, s.ledger) == PartLedger(ref, rows, t.ledger)
  {
    hide PartOrders, PartLedger, PartSessions;
  }

  lemma SessionsAlike(before: map<SessionId, Session>, after: map<SessionId, Session>, ref: Ref)
    requires ConfirmsStay(before, after)
    ensures PartSessions(ref, after) == PartSessions(ref, before)
  {
    var x, y := PartSessions(ref, after), PartSessions(ref, before);
    forall sid ensures sid in x <==> sid in y {
      assert sid in after && after[sid].Confirming? ==> sid in before && after[sid] == before[sid];
      assert sid in before && before[sid].Confirming? ==> sid in after && after[sid] == before[sid];
    }
    forall sid | sid in x ensures x[sid] == y[sid] {
      assert after[sid].Confirming?;
    }
  }

  lemma PlacePart(s: State, sid: SessionId, ids: seq<OrderId>, ref: Ref, rows: seq<OrderId>)
    requires RowsOk(s.orders, s.index, s.ledger) && RowsOf(s.index, ref) == rows
    requires sid in s.sessions && s.sessions[sid].Pricing? ==> s.sessions[sid].req.ref != ref
    ensures Part(PlaceOrdersStep(s, sid, ids).state, ref, rows) == Part(s, ref, rows)
    ensures RowsOf(PlaceOrdersStep(s, sid, ids).state.index, ref) == rows
  {
    OwnThere(s, ref, rows);
    PlaceConfirms(s, sid, ids);
    SessionsAlike(s.sessions, PlaceOrdersStep(s, sid, ids).state.sessions, ref);
    if PlaceOrdersStep(s, sid, ids).reply.Ok? {
      Placed(s, sid, ids);
      PlaceElsewhere(s, sid, ids, ref);
      var t := PlaceOrdersStep(s, sid, ids).state;
      hide PlaceOrdersStep, RowsOk, PartLedger, PartSessions;
      PartKept(rows, s.orders, t.orders);
      hide PartOrders;
    } else {
      RefusedOrders(s, sid, ids);
      hide PlaceOrdersStep, RowsOk, PartLedger, PartSessions, PartOrders;
    }
  }

  lemma PartKept(rows: seq<OrderId>, x: map<OrderId, Order>, y: map<OrderId, Order>)
    requires forall id :: id in rows ==> id in x && id in y && y[id] == x[id]
    ensures PartOrders(rows, y) == PartOrders(rows, x)
  {
  }

  lemma PlaceElsewhere(s: State, sid: SessionId, ids: seq<OrderId>, ref: Ref)
    requires PlaceOrdersStep(s, sid, ids).reply.Ok? && s.sessions[sid].req.ref != ref
    ensures RowsOf(PlaceOrdersStep(s, sid, ids).state.index, ref) == RowsOf(s.index, ref)
  {
    hide InsertOrders, FreshIds, Insertable;
  }

  lemma MoneyPart(s: State, a: Step, ref: Ref, rows: seq<OrderId>)
    requires (a.PayOut? && !Concerns(ref, rows, "WD_" + a.token)) || (a.Deposit? && !Concerns(ref, rows, a.reference))
    ensures Part(Next(s, a).state, ref, rows) == Part(s, ref, rows)
  {
    var e := MoneyAdds(s, a);
    hide Next;
    PartAppend(ref, rows, s.ledger, e);
    hide PartLedger, PartOrders, PartSessions, Concerns;
  }

  /** Paying for orders of another reference. */
  lemma PayOneElse(s: State, other: Ref, id: OrderId, lone: bool, ref: Ref, rows: seq<OrderId>)
    requires other != ref && id !in rows
    ensures Part(PayOne(s, other, id, lone), ref, rows) == Part(s, ref, rows)
  {
    if AwaitsPayment(s.orders, id) {
      var e := CreditRow(s.orders[id], id, other, lone);
      var o := s.orders[id].(status := Confirmed, paid := Some(s.now));
      NotConcerned(ref, rows, other, id);
      PartInsert(ref, rows, s.ledger, e);
      PartOther(rows, s.orders, id, o);
      hide PartLedger, PartOrders, PartSessions, Concerns, Insert, RedeemAll, CreditRef;
    }
  }

  lemma {:induction false} PayAllElse(s: State, other: Ref, paid: seq<OrderId>, lone: bool, ref: Ref,
                                      rows: seq<OrderId>)
    requires other != ref && forall i :: 0 <= i < |paid| ==> paid[i] !in rows
    ensures Part(PayAll(s, other, paid, lone), ref, rows) == Part(s, ref, rows)
    decreases |paid|
  {
    hide Part, PayOne;
    if paid != [] {
      PayOneElse(s, other, paid[0], lone, ref, rows);
      PayAllElse(PayOne(s, other, paid[0], lone), other, paid[1..], lone, ref, rows);
    }
  }

  lemma CommitElse(s: State, sid: SessionId, ref: Ref, rows: seq<OrderId>)
    requires TablesOk(s) && RowsOf(s.index, ref) == rows
    requires sid in s.sessions && s.sessions[sid].Confirming? ==> s.sessions[sid].ref != ref
    ensures Part(CommitConfirmStep(s, sid).state, ref, rows) == Part(s, ref, rows)
  {
    if sid in s.sessions && s.sessions[sid].Confirming? {
      var c := s.sessions[sid];
      CommitIs(s, sid);
      assert ConfirmsOwn(s.sessions, s.orders);
      OwnThere(s, ref, rows);
      CloseOther(s, sid, ref, rows);
      hide Part, TablesOk, CommitConfirmStep, PayAll;
      PayAllElse(Close(s, sid), c.ref, c.rows, c.lone, ref, rows);
    }
  }

  lemma CloseOther(s: State, sid: SessionId, ref: Ref, rows: seq<OrderId>)
    requires sid in s.sessions && s.sessions[sid].Confirming? && s.sessions[sid].ref != ref
    ensures Part(Close(s, sid), ref, rows) == Part(s, ref, rows)
  {
    hide PartOrders, PartLedger;
    assert PartSessions(ref, s.sessions - {sid}) == PartSessions(ref, s.sessions);
  }

  // ---------- Steps of its own ----------

  /** Paying for an order of the reference looks the same from inside. */
  lemma PayOnePart(s: State, id: OrderId, lone: bool, ref: Ref, rows: seq<OrderId>)
    requires id in rows
    ensures Part(PayOne(s, ref, id, lone), ref, rows) == PayOne(Part(s, ref, rows), ref, id, lone)
  {
    AwaitsPart(rows, s.orders, id);
    if AwaitsPayment(s.orders, id) {
      var o := s.orders[id];
      var e := CreditRow(o, id, ref, lone);
      OwnConcern(ref, rows, id);
      PartInsert(ref, rows, s.ledger, e);
      PartOrder(rows, s.orders, id, o.(status := Confirmed, paid := Some(s.now)));
      NoDeals(o.lines, id);
      assert e.reference == CreditRef(ref, id);
      hide PartLedger, PartOrders, PartSessions, Concerns, Insert, CreditRow, RedeemAll, AwaitsPayment;
    }
  }

  lemma AwaitsPart(rows: seq<OrderId>, orders: map<OrderId, Order>, id: OrderId)
    requires id in rows
    ensures AwaitsPayment(PartOrders(rows, orders), id) <==> AwaitsPayment(orders, id)
    ensures id in orders ==> id in PartOrders(rows, orders) && PartOrders(rows, orders)[id] == orders[id]
  {
  }

  lemma OwnConcern(ref: Ref, rows: seq<OrderId>, id: OrderId)
    requires id in rows
    ensures Concerns(ref, rows, CreditRef(ref, id))
  {
    var k :| 0 <= k < |rows| && rows[k] == id;
    assert CreditRef(ref, rows[k]) == CreditRef(ref, id);
  }

  lemma PartOrder(rows: seq<OrderId>, orders: map<OrderId, Order>, id: OrderId, o: Order)
    requires id in rows
    ensures PartOrders(rows, orders[id := o]) == PartOrders(rows, orders)[id := o]
  {
  }

  lemma NoDeals(lines: seq<Line>, id: OrderId)
    ensures RedeemAll(map[], lines, id) == map[]
  {
  }

  lemma {:induction false} PayAllPart(s: State, paid: seq<OrderId>, lone: bool, ref: Ref, rows: seq<OrderId>)
    requires forall i :: 0 <= i < |paid| ==> paid[i] in rows
    ensures Part(PayAll(s, ref, paid, lone), ref, rows) == PayAll(Part(s, ref, rows), ref, paid, lone)
    decreases |paid|
  {
    hide Part, PayOne;
    if paid != [] {
      PayOnePart(s, paid[0], lone, ref, rows);
      PayAllPart(PayOne(s, ref, paid[0], lone), paid[1..], lone, ref, rows);
    }
  }

  lemma CommitPart(s: State, sid: SessionId, ref: Ref, rows: seq<OrderId>)
    requires sid in s.sessions && s.sessions[sid].Confirming? && s.sessions[sid].ref == ref
    requires forall i :: 0 <= i < |s.sessions[sid].rows| ==> s.sessions[sid].rows[i] in rows
    ensures Part(CommitConfirmStep(s, sid).state, ref, rows) == CommitConfirmStep(Part(s, ref, rows), sid).state
    ensures CommitConfirmStep(Part(s, ref, rows), sid).reply.Ok?
  {
    var c := s.sessions[sid];
    var p := Part(s, ref, rows);
    assert p.sessions[sid] == c;
    CommitIs(s, sid);
    CommitIs(p, sid);
    ClosePart(s, sid, ref, rows);
    hide Part, PayAll;
    PayAllPart(Close(s, sid), c.rows, c.lone, ref, rows);
  }

  lemma ClosePart(s: State, sid: SessionId, ref: Ref, rows: seq<OrderId>)
    ensures Part(Close(s, sid), ref, rows) == Close(Part(s, ref, rows), sid)
  {
    hide PartOrders, PartLedger;
    assert PartSessions(ref, s.sessions - {sid}) == PartSessions(ref, s.sessions) - {sid};
  }

  lemma SumPart(orders: map<OrderId, Order>, rows: seq<OrderId>, read: seq<OrderId>)
    requires forall i :: 0 <= i < |read| ==> read[i] in rows
    ensures SumTotals(PartOrders(rows, orders), read) == SumTotals(orders, read)
  {
  }

  lemma BeginPart(s: State, sid: SessionId, ref: Ref, read: seq<OrderId>, rows: seq<OrderId>)
    requires RowsOf(s.index, ref) == rows && BeginConfirmStep(s, sid, ref, read).reply.Ok?
    ensures BeginConfirmStep(Part(s, ref, rows), sid, ref, read)
         == Out(Part(BeginConfirmStep(s, sid, ref, read).state, ref, rows), Ok(()))
  {
    var p := Part(s, ref, rows);
    BeginShape(s, sid, ref, read);
    ReadIn(read, rows);
    SumPart(s.orders, rows, read);
    PartRows(s, ref, rows);
    forall i | 0 <= i < |read| ensures AwaitsPayment(p.orders, read[i]) <==> AwaitsPayment(s.orders, read[i]) {
      AwaitsPart(rows, s.orders, read[i]);
    }
    OpenPart(s, sid, Confirming(ref, read, |read| == 1), ref, rows);
    hide SumTotals, PartOrders, PartLedger, PartSessions, AwaitsPayment, RowsOf;
  }

  lemma ReadIn(read: seq<OrderId>, rows: seq<OrderId>)
    requires multiset(read) == multiset(rows)
    ensures forall i :: 0 <= i < |read| ==> read[i] in rows
  {
    forall i | 0 <= i < |read| ensures read[i] in rows {
      assert read[i] in multiset(rows);
    }
  }

  lemma OpenPart(s: State, sid: SessionId, c: Session, ref: Ref, rows: seq<OrderId>)
    requires c.Confirming? && c.ref == ref
    ensures Part(WithSession(s, sid, c), ref, rows) == WithSession(Part(s, ref, rows), sid, c)
  {
    hide PartOrders, PartLedger;
    assert PartSessions(ref, s.sessions[sid := c]) == PartSessions(ref, s.sessions)[sid := c];
  }

  /** A call on another reference, or one that is refused, does not show. */
  lemma BeginElse(s: State, sid: SessionId, other: Ref, read: seq<OrderId>, ref: Ref, rows: seq<OrderId>)
    requires other != ref || BeginConfirmStep(s, sid, other, read).reply.Err?
    ensures Part(BeginConfirmStep(s, sid, other, read).state, ref, rows) == Part(s, ref, rows)
  {
    hide PartOrders, PartLedger, SumTotals, AwaitsPayment, RowsOf;
    assert sid !in s.sessions ==>
        PartSessions(ref, s.sessions[sid := Confirming(other, read, |read| == 1)]) == PartSessions(ref, s.sessions)
        || other == ref;
  }

  lemma AbandonPart(s: State, ref: Ref, rows: seq<OrderId>)
    ensures Part(s.(orders := AbandonAll(s.orders, s.now)), ref, rows)
         == Part(s, ref, rows).(orders := AbandonAll(PartOrders(rows, s.orders), s.now))
  {
    hide PartLedger, PartSessions, AbandonRow;
    assert PartOrders(rows, AbandonAll(s.orders, s.now)) == AbandonAll(PartOrders(rows, s.orders), s.now);
  }

  // ---------- Any step ----------

  lemma SameClock(s: State, a: Step)
    requires !a.Tick?
    ensures Next(s, a).state.now == s.now
    ensures !a.Charge? ==> Next(s, a).state.charges == s.charges
    ensures a.Charge? ==> forall ref :: ref != a.ref ==>
              && (ref in Next(s, a).state.charges <==> ref in s.charges)
              && (ref in s.charges ==> Next(s, a).state.charges[ref] == s.charges[ref])
  {
    hide CreateOfferStep, BuyerMoveStep, VendorMoveStep, ExpireAll, BeginCheckoutStep, PriceLineStep,
         PlaceOrdersStep, BeginConfirmStep, CommitConfirmStep, AbandonAll, VendorWritesStep, ActOn,
         BeginSweepStep, SweepStep, WithdrawStep, DepositStep;
  }

  /** Steps that write no order, no ledger row and no confirmation. */
  lemma QuietPart(s: State, a: Step, ref: Ref, rows: seq<OrderId>)
    requires Elsewhere(a) && !a.Tick? && !a.BeginConfirm? && (a.Charge? ==> a.ref != ref)
    ensures Part(Next(s, a).state, ref, rows) == Part(s, ref, rows)
  {
    QuietRows(s, a);
    SameClock(s, a);
    if a.BeginCheckout? || a.PriceLine? || a.BeginSweep? {
      CallConfirms(s, a);
      SessionsAlike(s.sessions, Next(s, a).state.sessions, ref);
    } else {
      OtherSessions(s, a);
    }
    hide Next, PartOrders, PartLedger, PartSessions;
  }

  lemma TickPart(s: State, to: int, ref: Ref, rows: seq<OrderId>)
    ensures Part(Next(s, Tick(to)).state, ref, rows) == Next(Part(s, ref, rows), Tick(to)).state
  {
    hide PartOrders, PartLedger, PartSessions;
  }

  lemma MarkPart(s: State, ref: Ref, rows: seq<OrderId>)
    ensures Part(Next(s, MarkAbandoned).state, ref, rows) == Next(Part(s, ref, rows), MarkAbandoned).state
  {
    CheckoutStepIs(s, MarkAbandoned);
    CheckoutStepIs(Part(s, ref, rows), MarkAbandoned);
    hide Next;
    AbandonPart(s, ref, rows);
    hide PartOrders, PartLedger, PartSessions, AbandonAll;
  }

  lemma ActionPart(s: State, a: Step, ref: Ref, rows: seq<OrderId>)
    requires TablesOk(s) && RowsOf(s.index, ref) == rows && (a.VendorWrites? || a.OnOrder? || a.Sweep?)
    requires forall id :: id in rows ==> ActionOn(s, a, id).None?
    ensures Part(Next(s, a).state, ref, rows) == Part(s, ref, rows)
  {
    hide *;
    TablesGive(s);
    OwnThere(s, ref, rows);
    OrderStepIs(s, a);
    match a {
      case VendorWrites(id, store, status) => VendorPart(s, id, store, status, ref, rows);
      case OnOrder(id, m) =>
        if id in rows {
          OnOrderNone(s, id, m);
          NextNothing(s, id, m);
        } else {
          ActPart(s, id, m, ref, rows);
        }
      case Sweep(sid) => SweepPart(s, sid, ref, rows);
    }
  }

  lemma TablesGive(s: State)
    requires TablesOk(s)
    ensures RowsOk(s.orders, s.index, s.ledger)
  {
  }

  lemma VendorPart(s: State, id: OrderId, store: StoreId, status: OrderStatus, ref: Ref, rows: seq<OrderId>)
    requires RowsOk(s.orders, s.index, s.ledger) && RowsOf(s.index, ref) == rows
    requires forall own :: own in rows ==> own in s.orders && ActionOn(s, VendorWrites(id, store, status), own).None?
    ensures Part(VendorWritesStep(s, id, store, status).state, ref, rows) == Part(s, ref, rows)
  {
    hide Part, RowsOk, ActOn;
    if id in s.orders { ActPart(s, id, VendorSets(store, status, FulfilmentOf(s.orders, id)), ref, rows); }
  }

  lemma OnOrderNone(s: State, id: OrderId, m: Move)
    requires id in s.orders && ActionOn(s, OnOrder(id, m), id).None?
    ensures m.VendorSets? || m.SweepMark? || m.SweepRelease?
  {
  }

  lemma NextNothing(s: State, id: OrderId, m: Move)
    requires m.VendorSets? || m.SweepMark? || m.SweepRelease?
    ensures Next(s, OnOrder(id, m)).state == s
  {
  }

  lemma NextBegin(s: State, sid: SessionId, ref: Ref, read: seq<OrderId>)
    ensures Next(s, BeginConfirm(sid, ref, read)) == BeginConfirmStep(s, sid, ref, read)
  {
    hide BeginConfirmStep;
  }

  lemma CommitNext(s: State, sid: SessionId)
    ensures Next(s, CommitConfirm(sid)) == CommitConfirmStep(s, sid)
  {
    hide CommitConfirmStep;
  }

  lemma CallOwns(s: State, sid: SessionId, ref: Ref, rows: seq<OrderId>)
    requires TablesOk(s) && RowsOf(s.index, ref) == rows
    requires sid in s.sessions && s.sessions[sid].Confirming? && s.sessions[sid].ref == ref
    ensures forall i :: 0 <= i < |s.sessions[sid].rows| ==> s.sessions[sid].rows[i] in rows
  {
    hide OrdersShape, Credits;
  }

  /** A bystanding step: one of the reference's own looks the same from inside, any other does not
      show. */
  lemma StepPart(s: State, a: Step, ref: Ref, rows: seq<OrderId>)
    requires TablesOk(s) && RowsOf(s.index, ref) == rows && Bystands(s, a, ref, rows)
    ensures OwnStep(s, a, ref) ==>
              && Part(Next(s, a).state, ref, rows) == Next(Part(s, ref, rows), a).state
              && Racing(ref, a) && (a.CommitConfirm? ==> Next(Part(s, ref, rows), a).reply.Ok?)
    ensures !OwnStep(s, a, ref) ==> Part(Next(s, a).state, ref, rows) == Part(s, ref, rows)
  {
    hide Next, Part, TablesOk, ActionOn, Concerns, BeginConfirmStep, CommitConfirmStep;
    if a.Tick? {
      TickPart(s, a.to, ref, rows);
    } else if a.MarkAbandoned? {
      MarkPart(s, ref, rows);
    } else if a.BeginConfirm? {
      NextBegin(s, a.sid, a.ref, a.rows);
      NextBegin(Part(s, ref, rows), a.sid, a.ref, a.rows);
      if OwnStep(s, a, ref) {
        BeginPart(s, a.sid, ref, a.rows, rows);
      } else {
        BeginElse(s, a.sid, a.ref, a.rows, ref, rows);
      }
    } else if a.CommitConfirm? {
      CommitNext(s, a.sid);
      CommitNext(Part(s, ref, rows), a.sid);
      if OwnStep(s, a, ref) {
        CallOwns(s, a.sid, ref, rows);
        CommitPart(s, a.sid, ref, rows);
      } else {
        CommitElse(s, a.sid, ref, rows);
      }
    } else {
      OthersPart(s, a, ref, rows);
    }
  }

  lemma OthersPart(s: State, a: Step, ref: Ref, rows: seq<OrderId>)
    requires TablesOk(s) && RowsOf(s.index, ref) == rows && Bystands(s, a, ref, rows)
    requires !a.Tick? && !a.MarkAbandoned? && !a.BeginConfirm? && !a.CommitConfirm?
    ensures Part(Next(s, a).state, ref, rows) == Part(s, ref, rows)
  {
    hide Next, Part, ActionOn, Concerns;
    if a.VendorWrites? || a.OnOrder? || a.Sweep? {
      ActionPart(s, a, ref, rows);
    } else if a.PlaceOrders? {
      CheckoutStepIs(s, a);
      PlacePart(s, a.sid, a.ids, ref, rows);
    } else if a.PayOut? || a.Deposit? {
      MoneyPart(s, a, ref, rows);
    } else {
      IsElsewhere(a);
      QuietPart(s, a, ref, rows);
    }
  }

  lemma StepRowsOf(s: State, a: Step, ref: Ref, rows: seq<OrderId>)
    requires TablesOk(s) && RowsOf(s.index, ref) == rows && Bystands(s, a, ref, rows)
    ensures RowsOf(Next(s, a).state.index, ref) == rows
  {
    if a.PlaceOrders? {
      CheckoutStepIs(s, a);
      hide Next, Part, ActionOn, Concerns;
      PlacePart(s, a.sid, a.ids, ref, rows);
    } else {
      SameIndex(s, a);
      hide Next;
    }
  }

  // ---------- Whole runs ----------

  lemma {:induction false} RunPart(s: State, steps: seq<Step>, ref: Ref, rows: seq<OrderId>)
    requires TablesOk(s) && RowsOf(s.index, ref) == rows && BystandRun(s, steps, ref, rows)
    ensures var seen := Seen(s, steps, ref);
            && Part(Run(s, steps), ref, rows) == Run(Part(s, ref, rows), seen)
            && (forall i :: 0 <= i < |seen| ==> Racing(ref, seen[i]))
            && (CommittedOn(s, steps, ref) <==> Committed(Part(s, ref, rows), seen))
            && RowsOf(Run(s, steps).index, ref) == rows
    decreases |steps|
  {
    if steps != [] {
      hide *;
      var a, rest := steps[0], steps[1..];
      var next, seen := Next(s, a).state, Seen(Next(s, a).state, steps[1..], ref);
      FirstStep(s, steps, ref, rows);
      StepPart(s, a, ref, rows);
      StepRowsOf(s, a, ref, rows);
      StepOk(s, a);
      RunPart(next, rest, ref, rows);
      if OwnStep(s, a, ref) {
        Prepend(Part(s, ref, rows), a, seen, ref);
      } else {
        assert [] + seen == seen;
      }
    }
  }

  lemma FirstStep(s: State, steps: seq<Step>, ref: Ref, rows: seq<OrderId>)
    requires steps != [] && BystandRun(s, steps, ref, rows)
    ensures var a, next, rest := steps[0], Next(s, steps[0]).state, steps[1..];
            && Bystands(s, a, ref, rows) && BystandRun(next, rest, ref, rows) && Run(s, steps) == Run(next, rest)
            && Seen(s, steps, ref) == (if OwnStep(s, a, ref) then [a] else []) + Seen(next, rest, ref)
            && (CommittedOn(s, steps, ref) <==>
                 (a.CommitConfirm? && OwnStep(s, a, ref)) || CommittedOn(next, rest, ref))
  {
    hide Next, Bystands, OwnStep;
  }

  lemma Prepend(p: State, a: Step, steps: seq<Step>, ref: Ref)
    requires Racing(ref, a) && forall i :: 0 <= i < |steps| ==> Racing(ref, steps[i])
    ensures forall i :: 0 <= i < |[a] + steps| ==> Racing(ref, ([a] + steps)[i])
    ensures Run(p, [a] + steps) == Run(Next(p, a).state, steps)
    ensures Committed(p, [a] + steps) <==>
              (a.CommitConfirm? && Next(p, a).reply.Ok?) || Committed(Next(p, a).state, steps)
  {
    hide Next, Racing;
    assert ([a] + steps)[1..] == steps;
  }

  // ---------- The race among others ----------

  /** The reference's orders and credits stand in `t` as in `d`, and none of the orders waits. */
  ghost predicate SettledPart(t: State, d: State, ref: Ref, rows: seq<OrderId>) {
    && PartOrders(rows, t.orders) == PartOrders(rows, d.orders)
    && PartLedger(ref, rows, t.ledger) == PartLedger(ref, rows, d.ledger)
    && (forall id :: id in rows ==> id in t.orders && !Unpaid(t.orders[id].status))
  }

  /** The reference's orders and credits are untouched, but for awaiting orders given up. */
  ghost predicate UntouchedPart(s: State, t: State, ref: Ref, rows: seq<OrderId>) {
    && PartLedger(ref, rows, t.ledger) == PartLedger(ref, rows, s.ledger)
    && Abandons(PartOrders(rows, s.orders), PartOrders(rows, t.orders))
  }

  lemma IndexedPart(s: State, ref: Ref, rows: seq<OrderId>)
    requires RowsOk(s.orders, s.index, s.ledger) && RowsOf(s.index, ref) == rows
    ensures Indexed(Part(s, ref, rows).orders, Part(s, ref, rows).index)
    ensures RowsOf(Part(s, ref, rows).index, ref) == rows
  {
    hide OrdersShape, Credits, PartLedger, PartSessions;
  }

  /** A call alone looks the same from inside. */
  lemma SerialPart(s: State, sid: SessionId, ref: Ref, read: seq<OrderId>, at: int, rows: seq<OrderId>)
    requires RowsOf(s.index, ref) == rows && sid !in s.sessions
    requires Serial(Part(s, ref, rows), sid, ref, read, at).reply.Ok?
    ensures Serial(s, sid, ref, read, at).reply.Ok?
    ensures Part(Serial(s, sid, ref, read, at).state, ref, rows) == Serial(Part(s, ref, rows), sid, ref, read, at).state
  {
    var base := s.(now := at);
    assert Part(base, ref, rows) == Part(s, ref, rows).(now := at);
    BeginHere(base, sid, ref, read, rows);
    BeginPart(base, sid, ref, read, rows);
    BeginShape(base, sid, ref, read);
    ReadIn(read, rows);
    var begun := BeginConfirmStep(base, sid, ref, read).state;
    if sid in begun.sessions { CommitPart(begun, sid, ref, rows); }
    hide BeginConfirmStep, CommitConfirmStep, PartOrders, PartLedger;
  }

  lemma BeginHere(s: State, sid: SessionId, ref: Ref, read: seq<OrderId>, rows: seq<OrderId>)
    requires RowsOf(s.index, ref) == rows && sid !in s.sessions
    requires BeginConfirmStep(Part(s, ref, rows), sid, ref, read).reply.Ok?
    ensures BeginConfirmStep(s, sid, ref, read).reply.Ok?
  {
    ReadIn(read, rows);
    SumPart(s.orders, rows, read);
    hide SumTotals, PartLedger;
  }

  lemma BeginShape(s: State, sid: SessionId, ref: Ref, read: seq<OrderId>)
    requires BeginConfirmStep(s, sid, ref, read).reply.Ok?
    ensures sid !in s.sessions
    ensures multiset(read) == multiset(RowsOf(s.index, ref))
    ensures var t := BeginConfirmStep(s, sid, ref, read).state;
            sid in t.sessions ==> t.sessions[sid] == Confirming(ref, read, |read| == 1)
  {
    hide SumTotals, AwaitsPayment, RowsOf;
  }

  lemma PartSettled(t: State, d: State, ref: Ref, rows: seq<OrderId>)
    requires RowsOf(Part(t, ref, rows).index, ref) == rows
    requires Settled(Part(t, ref, rows), Part(d, ref, rows), ref)
    ensures SettledPart(t, d, ref, rows)
  {
    hide PartLedger, PartSessions;
    var x, y := Part(t, ref, rows), Part(d, ref, rows);
    forall id | id in rows ensures id in x.orders && x.orders[id] == y.orders[id] && !Unpaid(x.orders[id].status) {
      var i :| 0 <= i < |rows| && rows[i] == id;
      assert RowsOf(x.index, ref)[i] == id;
    }
  }

  /** However many confirmations of a reference race, and whatever the rest of the marketplace does
      meanwhile on other orders and references, the reference's orders and credits end as one call
      alone leaves them, or nothing of it is confirmed. */
  lemma {:induction false} ConfluenceAmongOthers(s: State, steps: seq<Step>, ref: Ref, rows: seq<OrderId>,
                                                 sid: SessionId)
    requires TablesOk(s) && RowsOf(s.index, ref) == rows && BystandRun(s, steps, ref, rows) && sid !in s.sessions
    requires forall other :: other in s.sessions && s.sessions[other].Confirming? ==> s.sessions[other].ref != ref
    ensures var t := Run(s, steps);
            if CommittedOn(s, steps, ref) then
              exists at, read ::
                && s.now <= at <= t.now
                && Serial(s, sid, ref, read, at).reply.Ok?
                && SettledPart(t, Serial(s, sid, ref, read, at).state, ref, rows)
            else
              UntouchedPart(s, t, ref, rows)
  {
    hide *;
    var p, t, seen := Part(s, ref, rows), Run(s, steps), Seen(s, steps, ref);
    PartIs(s, ref, rows);
    PartIs(t, ref, rows);
    NoCalls(s, ref);
    IndexedStart(s, ref, rows);
    RunPart(s, steps, ref, rows);
    Confluence.Confluence(p, ref, seen, sid);
    if CommittedOn(s, steps, ref) {
      var at, read :| && s.now <= at <= t.now
                      && Serial(p, sid, ref, read, at).reply.Ok?
                      && Settled(Part(t, ref, rows), Serial(p, sid, ref, read, at).state, ref);
      SerialPart(s, sid, ref, read, at, rows);
      PartRows(t, ref, rows);
      PartSettled(t, Serial(s, sid, ref, read, at).state, ref, rows);
    } else {
      UntouchedIs(s, t, ref, rows);
    }
  }

  lemma IndexedStart(s: State, ref: Ref, rows: seq<OrderId>)
    requires TablesOk(s) && RowsOf(s.index, ref) == rows
    ensures Indexed(Part(s, ref, rows).orders, Part(s, ref, rows).index)
  {
    IndexedPart(s, ref, rows);
  }

  lemma PartIs(s: State, ref: Ref, rows: seq<OrderId>)
    ensures var p := Part(s, ref, rows);
            && p.now == s.now && p.ledger == PartLedger(ref, rows, s.ledger)
            && p.orders == PartOrders(rows, s.orders) && p.sessions == PartSessions(ref, s.sessions)
  {
    hide PartLedger, PartOrders, PartSessions;
  }

  lemma NoCalls(s: State, ref: Ref)
    requires forall sid :: sid in s.sessions && s.sessions[sid].Confirming? ==> s.sessions[sid].ref != ref
    ensures PartSessions(ref, s.sessions) == map[]
  {
    var none := PartSessions(ref, s.sessions);
    assert forall sid :: sid !in none;
  }

  lemma PartRows(s: State, ref: Ref, rows: seq<OrderId>)
    ensures RowsOf(Part(s, ref, rows).index, ref) == rows
  {
  }

  lemma UntouchedIs(s: State, t: State, ref: Ref, rows: seq<OrderId>)
    requires PartLedger(ref, rows, t.ledger) == PartLedger(ref, rows, s.ledger)
    requires Abandons(PartOrders(rows, s.orders), PartOrders(rows, t.orders))
    ensures UntouchedPart(s, t, ref, rows)
  {
  }
}
