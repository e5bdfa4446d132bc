/** Browser and webhook racing to confirm one payment, with the abandoned sweep running
    through them, end where one undisturbed call would. */
module Confluence {
  import opened Base
  import opened Ledger
  import opened Orders
  import opened Market
  import opened Tables

  /** The steps of any number of confirmations of one reference, and of the abandoned sweep. */
  ghost predicate Racing(ref: Ref, a: Step) {
    || (a.BeginConfirm? && a.ref == ref)
    || a.CommitConfirm? || a.MarkAbandoned? || a.Tick?
  }

  /** One call of ConfirmPayment with nothing in between, at time `at`. */
  function Serial(s: State, sid: SessionId, ref: Ref, rows: seq<OrderId>, at: int): Out {
    var begun := BeginConfirmStep(s.(now := at), sid, ref, rows);
    if begun.reply.Err? || sid !in begun.state.sessions then begun else CommitConfirmStep(begun.state, sid)
  }

  /** `rows` are the reference's orders, as some query may return them. */
  ghost predicate Enumerates(rows: seq<OrderId>, index: map<Ref, seq<OrderId>>, ref: Ref) {
    multiset(rows) == multiset(RowsOf(index, ref))
  }

  /** `y` is `x` with some awaiting orders marked abandoned. */
  ghost predicate Abandons(x: map<OrderId, Order>, y: map<OrderId, Order>) {
    x.Keys == y.Keys &&
    forall id :: id in x ==> y[id] == x[id] || (x[id].status.AwaitingPayment? && y[id] == x[id].(status := Abandoned))
  }

  ghost predicate Beside(x: State, y: State) {
    x.now == y.now && x.ledger == y.ledger && x.offers == y.offers && Abandons(x.orders, y.orders)
  }

  /** The calls in flight read this reference's rows and passed its verification. */
  ghost predicate InFlight(s: State, ref: Ref) {
    forall sid :: sid in s.sessions && s.sessions[sid].Confirming? ==>
      && s.sessions[sid].ref == ref
      && Enumerates(s.sessions[sid].rows, s.index, ref)
      && s.sessions[sid].lone == (|s.sessions[sid].rows| == 1)
      && s.sessions[sid].rows != [] && ref != ""
      && ref in s.charges && s.charges[ref] == SumTotals(s.orders, s.sessions[sid].rows)
  }

  ghost predicate NobodyYet(s: State, t: State, ref: Ref) {
    && Beside(s.(now := t.now), t)
    && t.index == s.index && t.charges == s.charges
    && InFlight(t, ref)
  }

  /** The reference's orders, the ledger and the deals stand as in `d`. */
  ghost predicate Settled(t: State, d: State, ref: Ref) {
    && t.ledger == d.ledger && t.offers == d.offers && t.index == d.index && t.orders.Keys == d.orders.Keys
    && forall i :: 0 <= i < |RowsOf(t.index, ref)| ==>
         var id := RowsOf(t.index, ref)[i];
         id in t.orders && t.orders[id] == d.orders[id] && !Unpaid(t.orders[id].status)
  }

  // ---------- The confirmation loop ----------

  lemma SameCredit(o: Order, q: Order, id: OrderId, ref: Ref, lone: bool)
    requires q == o || q == o.(status := Abandoned)
    ensures CreditRow(q, id, ref, lone) == CreditRow(o, id, ref, lone)
  {
  }

  lemma AbandonsAt(x: map<OrderId, Order>, y: map<OrderId, Order>, id: OrderId, o: Order)
    requires Abandons(x, y) && id in x
    ensures id in y && (y[id] == x[id] || y[id] == x[id].(status := Abandoned))
    ensures Unpaid(x[id].status) == Unpaid(y[id].status)
    ensures !Unpaid(x[id].status) ==> x[id] == y[id]
    ensures Abandons(x[id := o], y[id := o])
  {
  }

  lemma SamePayment(o: Order, q: Order, now: int)
    requires q == o || q == o.(status := Abandoned)
    ensures q.(status := Confirmed, paid := Some(now)) == o.(status := Confirmed, paid := Some(now))
    ensures q.lines == o.lines
  {
  }

  lemma PayOneBeside(x: State, y: State, ref: Ref, id: OrderId, lone: bool)
    requires Beside(x, y) && id in x.orders
    ensures var p := PayOne(x, ref, id, lone);
            var q := PayOne(y, ref, id, lone);
            Beside(p, q) && p.orders[id] == q.orders[id] && !Unpaid(p.orders[id].status)
  {
    hide RedeemAll, Insert, CreditRow, Abandons, PayOne;
    var o := x.orders[id];
    var paid := o.(status := Confirmed, paid := Some(x.now));
    AbandonsAt(x.orders, y.orders, id, paid);
    SameCredit(o, y.orders[id], id, ref, lone);
    SamePayment(o, y.orders[id], x.now);
    if Unpaid(o.status) {
      PayOneIs(x, ref, id, lone);
      PayOneIs(y, ref, id, lone);
      assert PayOne(x, ref, id, lone).orders == x.orders[id := paid];
      assert PayOne(y, ref, id, lone).orders == y.orders[id := paid];
    } else {
      PayOneSkips(x, ref, id, lone);
      PayOneSkips(y, ref, id, lone);
    }
  }

  lemma PayOneSkips(s: State, ref: Ref, id: OrderId, lone: bool)
    requires !AwaitsPayment(s.orders, id)
    ensures PayOne(s, ref, id, lone) == s
  {
  }

  lemma PayOneIs(s: State, ref: Ref, id: OrderId, lone: bool)
    requires AwaitsPayment(s.orders, id)
    ensures var t := PayOne(s, ref, id, lone);
            && t.orders == s.orders[id := s.orders[id].(status := Confirmed, paid := Some(s.now))]
            && t.ledger == Insert(s.ledger, CreditRow(s.orders[id], id, ref, lone))
            && t.offers == RedeemAll(s.offers, s.orders[id].lines, id)
            && t.now == s.now
  {
  }

  lemma {:induction false} PayAllKeeps(s: State, ref: Ref, rows: seq<OrderId>, lone: bool, id: OrderId)
    requires id in s.orders && !Unpaid(s.orders[id].status)
    ensures PayAll(s, ref, rows, lone).orders[id] == s.orders[id]
    decreases |rows|
  {
    if rows != [] {
      PayAllKeeps(PayOne(s, ref, rows[0], lone), ref, rows[1..], lone, id);
    }
  }

  /** The loop absorbs any abandoned marks made since the calls began. */
  lemma {:induction false} PayAllBeside(x: State, y: State, ref: Ref, rows: seq<OrderId>, lone: bool)
    requires Beside(x, y) && forall i :: 0 <= i < |rows| ==> rows[i] in x.orders
    ensures var p := PayAll(x, ref, rows, lone);
            var q := PayAll(y, ref, rows, lone);
            && Beside(p, q)
            && forall i :: 0 <= i < |rows| ==>
                 rows[i] in p.orders && p.orders[rows[i]] == q.orders[rows[i]] && !Unpaid(p.orders[rows[i]].status)
    decreases |rows|
  {
    hide Beside, PayOne;
    if rows != [] {
      var p := PayOne(x, ref, rows[0], lone);
      var q := PayOne(y, ref, rows[0], lone);
      PayOneBeside(x, y, ref, rows[0], lone);
      BesideKeys(x, y);
      PayAllBeside(p, q, ref, rows[1..], lone);
      PayAllKeeps(p, ref, rows[1..], lone, rows[0]);
      PayAllKeeps(q, ref, rows[1..], lone, rows[0]);
      var u := PayAll(x, ref, rows, lone);
      var v := PayAll(y, ref, rows, lone);
      forall i | 0 <= i < |rows|
        ensures rows[i] in u.orders && u.orders[rows[i]] == v.orders[rows[i]] && !Unpaid(u.orders[rows[i]].status)
      {
        if i > 0 { assert rows[i] == rows[1..][i - 1]; }
      }
    }
  }

  lemma BesideKeys(x: State, y: State)
    requires Beside(x, y)
    ensures x.orders.Keys == y.orders.Keys
  {
  }

  /** A commit that finds nothing awaiting payment changes nothing. */
  lemma {:induction false} PayAllNothing(s: State, ref: Ref, rows: seq<OrderId>, lone: bool)
    requires forall i :: 0 <= i < |rows| ==> !AwaitsPayment(s.orders, rows[i])
    ensures PayAll(s, ref, rows, lone) == s
    decreases |rows|
  {
    if rows != [] {
      assert PayOne(s, ref, rows[0], lone) == s;
      PayAllNothing(s, ref, rows[1..], lone);
    }
  }

  lemma SameMembers(rows: seq<OrderId>, s: State, ref: Ref)
    requires Enumerates(rows, s.index, ref)
    ensures forall id :: id in rows <==> id in RowsOf(s.index, ref)
  {
    forall id: OrderId ensures id in rows <==> id in RowsOf(s.index, ref) {
      assert id in rows <==> id in multiset(rows);
      assert id in RowsOf(s.index, ref) <==> id in multiset(RowsOf(s.index, ref));
    }
  }

  // ---------- Before the first commit ----------

  lemma SumAbandons(x: map<OrderId, Order>, y: map<OrderId, Order>, rows: seq<OrderId>)
    requires Abandons(x, y)
    ensures SumTotals(x, rows) == SumTotals(y, rows)
  {
  }

  lemma BeginBeforeAnyone(s: State, t: State, ref: Ref, sid: SessionId, rows: seq<OrderId>)
    requires NobodyYet(s, t, ref)
    ensures NobodyYet(s, BeginConfirmStep(t, sid, ref, rows).state, ref)
  {
    hide Abandons, SumTotals, AwaitsPayment;
    if multiset(rows) == multiset(RowsOf(t.index, ref)) && multiset(rows) == multiset([]) { EmptyRows(rows); }
  }

  lemma EmptyRows(rows: seq<OrderId>)
    requires multiset(rows) == multiset([])
    ensures rows == []
  {
    assert |multiset(rows)| == |rows|;
  }

  lemma AbandonBeforeAnyone(s: State, t: State, ref: Ref)
    requires NobodyYet(s, t, ref)
    ensures NobodyYet(s, t.(orders := AbandonAll(t.orders, t.now)), ref)
  {
    hide SumTotals, Enumerates;
    var u := t.(orders := AbandonAll(t.orders, t.now));
    AbandonsMore(s.orders, t.orders, t.now);
    hide AbandonAll, Abandons;
    forall sid | sid in u.sessions && u.sessions[sid].Confirming?
      ensures u.charges[ref] == SumTotals(u.orders, u.sessions[sid].rows)
    {
      SumAbandons(t.orders, u.orders, u.sessions[sid].rows);
    }
    assert Beside(s.(now := t.now), u);
  }

  lemma AbandonsMore(x: map<OrderId, Order>, y: map<OrderId, Order>, now: int)
    requires Abandons(x, y)
    ensures Abandons(y, AbandonAll(y, now)) && Abandons(x, AbandonAll(y, now))
  {
    var z := AbandonAll(y, now);
    forall id | id in x
      ensures z[id] == x[id] || (x[id].status.AwaitingPayment? && z[id] == x[id].(status := Abandoned))
    {
      assert z[id] == AbandonRow(y[id], now);
    }
  }

  lemma TickBeforeAnyone(s: State, t: State, ref: Ref, to: int)
    requires NobodyYet(s, t, ref)
    ensures NobodyYet(s, Next(t, Tick(to)).state, ref)
  {
    hide Abandons, SumTotals, Enumerates, CreateOfferStep, BuyerMoveStep, VendorMoveStep, ExpireAll,
         BeginCheckoutStep, PriceLineStep,
         PlaceOrdersStep, BeginConfirmStep, CommitConfirmStep, AbandonAll, VendorWritesStep, ActOn,
         BeginSweepStep, SweepStep, WithdrawStep, DepositStep;
  }

  lemma CloseBeside(x: State, t: State, sid: SessionId)
    requires Beside(x, t)
    ensures Beside(x, Close(t, sid))
  {
  }

  /** The first commit does what a serial call at that moment, on the same rows, would do. */
  lemma FirstCommit(s: State, t: State, ref: Ref, sid: SessionId)
    requires Indexed(s.orders, s.index) && NobodyYet(s, t, ref)
    requires sid in t.sessions && t.sessions[sid].Confirming?
    ensures var rows := t.sessions[sid].rows;
            && Enumerates(rows, s.index, ref)
            && Settled(CommitConfirmStep(t, sid).state, PayAll(s.(now := t.now), ref, rows, |rows| == 1), ref)
  {
    var c := t.sessions[sid];
    var x, y := s.(now := t.now), Close(t, sid);
    FirstRows(s, t, ref, sid);
    hide SumTotals, PayAll, Enumerates, Indexed;
    CloseBeside(x, t, sid);
    PayAllBeside(x, y, ref, c.rows, c.lone);
    CommitIs(t, sid);
    assert y.index == x.index;
    hide CommitConfirmStep, Settled, NobodyYet, InFlight;
    SettleAll(PayAll(y, ref, c.rows, c.lone), PayAll(x, ref, c.rows, c.lone), ref, c.rows);
  }

  lemma SettleAll(u: State, d: State, ref: Ref, rows: seq<OrderId>)
    requires Beside(d, u) && u.index == d.index
    requires forall i :: 0 <= i < |rows| ==>
               rows[i] in d.orders && d.orders[rows[i]] == u.orders[rows[i]] && !Unpaid(d.orders[rows[i]].status)
    requires forall id :: id in RowsOf(u.index, ref) ==> id in rows
    ensures Settled(u, d, ref)
  {
    forall i | 0 <= i < |RowsOf(u.index, ref)|
      ensures var id := RowsOf(u.index, ref)[i];
              id in u.orders && u.orders[id] == d.orders[id] && !Unpaid(u.orders[id].status)
    {
      assert RowsOf(u.index, ref)[i] in rows;
      var j :| 0 <= j < |rows| && rows[j] == RowsOf(u.index, ref)[i];
    }
  }

  /** The rows a call in flight has read. */
  lemma FirstRows(s: State, t: State, ref: Ref, sid: SessionId)
    requires Indexed(s.orders, s.index) && NobodyYet(s, t, ref)
    requires sid in t.sessions && t.sessions[sid].Confirming?
    ensures var c := t.sessions[sid];
            && c.ref == ref && c.lone == (|c.rows| == 1) && Enumerates(c.rows, s.index, ref)
            && (forall i :: 0 <= i < |c.rows| ==> c.rows[i] in s.orders)
            && (forall id :: id in RowsOf(s.index, ref) ==> id in c.rows)
  {
    hide SumTotals;
    var c := t.sessions[sid];
    SameMembers(c.rows, s, ref);
    forall i | 0 <= i < |c.rows| ensures c.rows[i] in s.orders {
      assert c.rows[i] in RowsOf(s.index, ref);
    }
  }

  /** A serial call at that moment gets through, and leaves exactly the loop's result. */
  lemma {:induction false} SerialIsTheLoop(s: State, sid: SessionId, ref: Ref, rows: seq<OrderId>, at: int)
    requires sid !in s.sessions && Enumerates(rows, s.index, ref) && rows != [] && ref != ""
    requires ref in s.charges && s.charges[ref] == SumTotals(s.orders, rows)
    ensures Serial(s, sid, ref, rows, at).reply.Ok?
    ensures Serial(s, sid, ref, rows, at).state == PayAll(s.(now := at), ref, rows, |rows| == 1)
  {
    var base := s.(now := at);
    var begun := BeginConfirmStep(base, sid, ref, rows);
    if forall i :: 0 <= i < |rows| ==> !AwaitsPayment(s.orders, rows[i]) {
      PayAllNothing(base, ref, rows, |rows| == 1);
    } else {
      assert Close(begun.state, sid) == base;
    }
  }

  // ---------- After it ----------

  ghost predicate Watching(t: State, ref: Ref) {
    forall sid :: sid in t.sessions && t.sessions[sid].Confirming? ==> Enumerates(t.sessions[sid].rows, t.index, ref)
  }

  lemma AfterCommit(t: State, d: State, ref: Ref, a: Step)
    requires Settled(t, d, ref) && Watching(t, ref) && Racing(ref, a)
    ensures Settled(Next(t, a).state, d, ref) && Watching(Next(t, a).state, ref)
  {
    hide Settled, Watching, CreateOfferStep, BuyerMoveStep, VendorMoveStep, ExpireAll, BeginCheckoutStep, PriceLineStep,
         PlaceOrdersStep, BeginConfirmStep, CommitConfirmStep, AbandonAll, VendorWritesStep, ActOn,
         BeginSweepStep, SweepStep, WithdrawStep, DepositStep;
    match a
    case BeginConfirm(sid, _, rows) => BeginAfter(t, d, ref, sid, rows);
    case CommitConfirm(sid) => CommitAfter(t, d, ref, sid);
    case MarkAbandoned => AbandonAfter(t, d, ref);
    case Tick(to) => TickAfter(t, d, ref, if to > t.now then to else t.now);
  }

  lemma TickAfter(t: State, d: State, ref: Ref, now: int)
    requires Settled(t, d, ref) && Watching(t, ref)
    ensures Settled(t.(now := now), d, ref) && Watching(t.(now := now), ref)
  {
  }

  lemma BeginAfter(t: State, d: State, ref: Ref, sid: SessionId, rows: seq<OrderId>)
    requires Settled(t, d, ref) && Watching(t, ref)
    ensures BeginConfirmStep(t, sid, ref, rows).state == t
  {
    hide SumTotals;
    if Enumerates(rows, t.index, ref) {
      SameMembers(rows, t, ref);
      forall i | 0 <= i < |rows| ensures !AwaitsPayment(t.orders, rows[i]) {
        assert rows[i] in RowsOf(t.index, ref);
      }
    }
  }

  lemma CommitAfter(t: State, d: State, ref: Ref, sid: SessionId)
    requires Settled(t, d, ref) && Watching(t, ref)
    ensures Settled(CommitConfirmStep(t, sid).state, d, ref) && Watching(CommitConfirmStep(t, sid).state, ref)
  {
    if sid in t.sessions && t.sessions[sid].Confirming? {
      var c := t.sessions[sid];
      SameMembers(c.rows, t, ref);
      forall i | 0 <= i < |c.rows| ensures !AwaitsPayment(t.orders, c.rows[i]) {
        assert c.rows[i] in RowsOf(t.index, ref);
      }
      PayAllNothing(Close(t, sid), c.ref, c.rows, c.lone);
    }
  }

  lemma AbandonAfter(t: State, d: State, ref: Ref)
    requires Settled(t, d, ref) && Watching(t, ref)
    ensures Settled(t.(orders := AbandonAll(t.orders, t.now)), d, ref)
    ensures Watching(t.(orders := AbandonAll(t.orders, t.now)), ref)
  {
  }

  lemma {:induction false} RunAfter(t: State, d: State, ref: Ref, steps: seq<Step>)
    requires Settled(t, d, ref) && Watching(t, ref)
    requires forall i :: 0 <= i < |steps| ==> Racing(ref, steps[i])
    ensures Settled(Run(t, steps), d, ref)
    decreases |steps|
  {
    hide Settled, Watching, Next;
    if steps != [] {
      AfterCommit(t, d, ref, steps[0]);
      RunAfter(Next(t, steps[0]).state, d, ref, steps[1..]);
    }
  }

  // ---------- The race ----------

  function Committed(s: State, steps: seq<Step>): bool
    decreases |steps|
  {
    steps != [] &&
    ((steps[0].CommitConfirm? && Next(s, steps[0]).reply.Ok?) || Committed(Next(s, steps[0]).state, steps[1..]))
  }

  lemma StillNobody(s: State, t: State, ref: Ref, a: Step)
    requires NobodyYet(s, t, ref) && Racing(ref, a) && !(a.CommitConfirm? && Next(t, a).reply.Ok?)
    ensures NobodyYet(s, Next(t, a).state, ref)
  {
    hide NobodyYet, CreateOfferStep, BuyerMoveStep, VendorMoveStep, ExpireAll, BeginCheckoutStep, PriceLineStep,
         PlaceOrdersStep, BeginConfirmStep, AbandonAll, VendorWritesStep, ActOn,
         BeginSweepStep, SweepStep, WithdrawStep, DepositStep, PayAll;
    match a
    case BeginConfirm(sid, _, rows) => BeginBeforeAnyone(s, t, ref, sid, rows);
    case MarkAbandoned => AbandonBeforeAnyone(s, t, ref);
    case Tick(to) => TickBeforeAnyone(s, t, ref, to);
    case CommitConfirm(_) =>
  }

  lemma {:induction false} Race(s: State, t: State, ref: Ref, steps: seq<Step>) returns (at: int, rows: seq<OrderId>)
    requires Indexed(s.orders, s.index) && NobodyYet(s, t, ref)
    requires forall i :: 0 <= i < |steps| ==> Racing(ref, steps[i])
    ensures !Committed(t, steps) ==> NobodyYet(s, Run(t, steps), ref)
    ensures Committed(t, steps) ==>
              && Enumerates(rows, s.index, ref) && rows != [] && ref != ""
              && ref in s.charges && s.charges[ref] == SumTotals(s.orders, rows)
              && t.now <= at <= Run(t, steps).now
              && Settled(Run(t, steps), PayAll(s.(now := at), ref, rows, |rows| == 1), ref)
    decreases |steps|
  {
    hide NobodyYet, Settled, Watching, Indexed, Next;
    at, rows := 0, [];
    if steps != [] {
      var a := steps[0];
      if a.CommitConfirm? && Next(t, a).reply.Ok? {
        CommitReplies(t, a.sid);
        at, rows := t.now, t.sessions[a.sid].rows;
        FirstCommit(s, t, ref, a.sid);
        FirstCommitFacts(s, t, ref, a.sid);
        ClockForward(t, a);
        RunForward(Next(t, a).state, steps[1..]);
        RunAfter(Next(t, a).state, PayAll(s.(now := at), ref, rows, |rows| == 1), ref, steps[1..]);
      } else {
        StillNobody(s, t, ref, a);
        ClockForward(t, a);
        at, rows := Race(s, Next(t, a).state, ref, steps[1..]);
      }
    }
  }

  lemma CommitReplies(t: State, sid: SessionId)
    ensures Next(t, CommitConfirm(sid)) == CommitConfirmStep(t, sid)
    ensures CommitConfirmStep(t, sid).reply.Ok? ==> sid in t.sessions && t.sessions[sid].Confirming?
  {
  }

  lemma FirstCommitFacts(s: State, t: State, ref: Ref, sid: SessionId)
    requires NobodyYet(s, t, ref) && sid in t.sessions && t.sessions[sid].Confirming?
    ensures var rows := t.sessions[sid].rows;
            rows != [] && ref != "" && ref in s.charges && s.charges[ref] == SumTotals(s.orders, rows)
    ensures Watching(CommitConfirmStep(t, sid).state, ref)
  {
    SumAbandons(s.orders, t.orders, t.sessions[sid].rows);
  }

  /** Confluence. Whatever order browsers, webhooks and abandoned sweeps run in, once one
      confirmation has committed the reference's orders, the ledger and the deals are those
      of one serial call made at some moment of the run; before that, nothing was credited
      or redeemed. */
  lemma {:induction false} Confluence(s: State, ref: Ref, steps: seq<Step>, sid: SessionId)
    requires Indexed(s.orders, s.index) && sid !in s.sessions
    requires forall other :: other in s.sessions ==> !s.sessions[other].Confirming?
    requires forall i :: 0 <= i < |steps| ==> Racing(ref, steps[i])
    ensures var t := Run(s, steps);
            if Committed(s, steps) then
              exists at, rows ::
                && s.now <= at <= t.now
                && Serial(s, sid, ref, rows, at).reply.Ok?
                && Settled(t, Serial(s, sid, ref, rows, at).state, ref)
            else
              t.ledger == s.ledger && t.offers == s.offers && Abandons(s.orders, t.orders)
  {
    assert Beside(s.(now := s.now), s);
    assert NobodyYet(s, s, ref);
    var at, rows := Race(s, s, ref, steps);
    if Committed(s, steps) {
      SerialIsTheLoop(s, sid, ref, rows, at);
    }
  }
}
