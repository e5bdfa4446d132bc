/** What a confirmed payment writes, declared: the orders, the vendors' credits and the deals. */
module Payments {
  import opened Base
  import opened Negotiation
  import opened Ledger
  import opened Orders
  import opened Market

  /** Nothing has been paid for the order. */
  ghost predicate StillUnpaid(o: Order) {
    o.status == AwaitingPayment || o.status == Abandoned
  }

  /** Exactly the unpaid orders among these are confirmed and paid as of now. */
  ghost predicate AllConfirmed(before: map<OrderId, Order>, after: map<OrderId, Order>, rows: seq<OrderId>, now: int) {
    && after.Keys == before.Keys
    && forall id :: id in before ==>
         after[id] == if id in rows && StillUnpaid(before[id])
                      then before[id].(status := Confirmed, paid := Some(now))
                      else before[id]
  }

  /** The vendor's pending credit for an order: the lines, and the delivery fee of a lone order. */
  ghost predicate IsCredit(e: Entry, o: Order, id: OrderId, ref: Ref, lone: bool) {
    && e.store == o.store && e.kind == Credit && e.status == Held && !e.released && e.order == Some(id)
    && e.reference == ref + "_" + id[..8]
    && e.amount == if lone && o.fee > 0 then o.total else o.total - o.fee
  }

  /** The ledger has grown by credits of the unpaid orders among these, and each of them has a row
      under its reference. */
  ghost predicate AllCredited(orders: map<OrderId, Order>, before: seq<Entry>, after: seq<Entry>, rows: seq<OrderId>,
                              ref: Ref, lone: bool) {
    && before <= after
    && (forall k :: |before| <= k < |after| ==> CreditAmong(orders, rows, after[k], ref, lone))
    && (forall i :: 0 <= i < |rows| && rows[i] in orders && StillUnpaid(orders[rows[i]]) ==>
          Recorded(after, ref + "_" + rows[i][..8]))
  }

  ghost predicate CreditAmong(orders: map<OrderId, Order>, rows: seq<OrderId>, e: Entry, ref: Ref, lone: bool) {
    exists i :: 0 <= i < |rows| && rows[i] in orders && StillUnpaid(orders[rows[i]])
                && IsCredit(e, orders[rows[i]], rows[i], ref, lone)
  }

  ghost predicate Recorded(l: seq<Entry>, reference: string) {
    exists k :: 0 <= k < |l| && l[k].reference == reference
  }

  /** The deal is named by a line of one of the unpaid orders among these. */
  ghost predicate BoughtIn(orders: map<OrderId, Order>, rows: seq<OrderId>, f: OfferId) {
    exists i, j :: 0 <= i < |rows| && rows[i] in orders && StillUnpaid(orders[rows[i]])
                   && 0 <= j < |orders[rows[i]].lines| && orders[rows[i]].lines[j].deal == Some(f)
  }

  /** Exactly the deals that are bought with, accepted or expired, are redeemed. */
  ghost predicate AllRedeemed(orders: map<OrderId, Order>, before: map<OfferId, Offer>, after: map<OfferId, Offer>,
                              rows: seq<OrderId>) {
    && after.Keys == before.Keys
    && forall f :: f in before ==>
         if BoughtIn(orders, rows, f) && (before[f].status == Accepted || before[f].status == Expired)
         then after[f].status == Redeemed && after[f].agreed == before[f].agreed
         else after[f] == before[f]
  }

  // ---------- One order ----------

  lemma AwaitingAre(orders: map<OrderId, Order>)
    ensures forall id :: AwaitsPayment(orders, id) <==> id in orders && StillUnpaid(orders[id])
  {
  }

  lemma OneConfirmed(s: State, ref: Ref, id: OrderId, lone: bool)
    ensures AllConfirmed(s.orders, PayOne(s, ref, id, lone).orders, [id], s.now)
  {
    hide RedeemAll, Insert, CreditRow;
  }

  lemma OneCredited(s: State, ref: Ref, id: OrderId, lone: bool)
    ensures AllCredited(s.orders, s.ledger, PayOne(s, ref, id, lone).ledger, [id], ref, lone)
  {
    hide RedeemAll;
    var after := PayOne(s, ref, id, lone).ledger;
    if AwaitsPayment(s.orders, id) {
      var e := CreditRow(s.orders[id], id, ref, lone);
      assert IsCredit(e, s.orders[id], id, ref, lone);
      assert [id][0] == id;
      if after != s.ledger { assert after[|s.ledger|].reference == e.reference; }
      assert Recorded(after, e.reference);
    }
  }

  lemma OneRedeemed(s: State, ref: Ref, id: OrderId, lone: bool)
    ensures AllRedeemed(s.orders, s.offers, PayOne(s, ref, id, lone).offers, [id])
  {
    hide Insert, CreditRow;
    assert [id][0] == id;
    forall f ensures BoughtIn(s.orders, [id], f) <==>
                     id in s.orders && StillUnpaid(s.orders[id]) && Names(s.orders[id].lines, f)
    {
    }
    hide Names, BoughtIn;
  }

  // ---------- The loop ----------

  lemma {:induction false} PayAllWrites(s: State, ref: Ref, rows: seq<OrderId>, lone: bool)
    ensures var t := PayAll(s, ref, rows, lone);
            && AllConfirmed(s.orders, t.orders, rows, s.now)
            && AllCredited(s.orders, s.ledger, t.ledger, rows, ref, lone)
            && AllRedeemed(s.orders, s.offers, t.offers, rows)
    decreases |rows|
  {
    hide PayOne, AllConfirmed, AllCredited, AllRedeemed;
    if rows == [] {
      NothingWritten(s, ref, lone);
    } else {
      var next := PayOne(s, ref, rows[0], lone);
      var t := PayAll(next, ref, rows[1..], lone);
      OneConfirmed(s, ref, rows[0], lone);
      OneCredited(s, ref, rows[0], lone);
      OneRedeemed(s, ref, rows[0], lone);
      PayAllWrites(next, ref, rows[1..], lone);
      assert rows == [rows[0]] + rows[1..];
      hide PayAll;
      MoreConfirmed(s.orders, next.orders, t.orders, [rows[0]], rows[1..], s.now);
      MoreCredited(s.orders, next.orders, s.ledger, next.ledger, t.ledger, [rows[0]], rows[1..], s.now, ref, lone);
      MoreRedeemed(s.orders, next.orders, s.offers, next.offers, t.offers, [rows[0]], rows[1..], s.now);
    }
  }

  lemma NothingWritten(s: State, ref: Ref, lone: bool)
    ensures AllConfirmed(s.orders, s.orders, [], s.now)
    ensures AllCredited(s.orders, s.ledger, s.ledger, [], ref, lone)
    ensures AllRedeemed(s.orders, s.offers, s.offers, [])
  {
  }

  lemma MoreConfirmed(x: map<OrderId, Order>, y: map<OrderId, Order>, z: map<OrderId, Order>, xs: seq<OrderId>,
                      ys: seq<OrderId>, now: int)
    requires AllConfirmed(x, y, xs, now) && AllConfirmed(y, z, ys, now)
    ensures AllConfirmed(x, z, xs + ys, now)
  {
  }

  lemma StillCredit(x: map<OrderId, Order>, y: map<OrderId, Order>, rows: seq<OrderId>, now: int, id: OrderId)
    requires AllConfirmed(x, y, rows, now) && id in y && StillUnpaid(y[id])
    ensures id in x && y[id] == x[id]
  {
  }

  lemma MoreCredited(x: map<OrderId, Order>, y: map<OrderId, Order>, k: seq<Entry>, l: seq<Entry>, m: seq<Entry>,
                     xs: seq<OrderId>, ys: seq<OrderId>, now: int, ref: Ref, lone: bool)
    requires AllConfirmed(x, y, xs, now)
    requires AllCredited(x, k, l, xs, ref, lone) && AllCredited(y, l, m, ys, ref, lone)
    ensures AllCredited(x, k, m, xs + ys, ref, lone)
  {
    var rows := xs + ys;
    hide IsCredit;
    forall j | |k| <= j < |m| ensures CreditAmong(x, rows, m[j], ref, lone) {
      if j < |l| {
        assert m[j] == l[j];
        AmongFirst(x, xs, ys, m[j], ref, lone);
      } else {
        AmongLast(x, y, xs, ys, now, m[j], ref, lone);
      }
    }
    hide CreditAmong;
    forall i | 0 <= i < |rows| && rows[i] in x && StillUnpaid(x[rows[i]])
      ensures Recorded(m, ref + "_" + rows[i][..8])
    {
      if rows[i] in xs {
        var j :| 0 <= j < |xs| && xs[j] == rows[i];
        RecordedLater(l, m, ref + "_" + xs[j][..8]);
      } else {
        assert rows[i] == ys[i - |xs|];
      }
    }
  }

  lemma AmongFirst(x: map<OrderId, Order>, xs: seq<OrderId>, ys: seq<OrderId>, e: Entry, ref: Ref, lone: bool)
    requires CreditAmong(x, xs, e, ref, lone)
    ensures CreditAmong(x, xs + ys, e, ref, lone)
  {
    hide IsCredit;
    var i :| 0 <= i < |xs| && xs[i] in x && StillUnpaid(x[xs[i]]) && IsCredit(e, x[xs[i]], xs[i], ref, lone);
    assert (xs + ys)[i] == xs[i];
  }

  lemma AmongLast(x: map<OrderId, Order>, y: map<OrderId, Order>, xs: seq<OrderId>, ys: seq<OrderId>, now: int,
                  e: Entry, ref: Ref, lone: bool)
    requires AllConfirmed(x, y, xs, now) && CreditAmong(y, ys, e, ref, lone)
    ensures CreditAmong(x, xs + ys, e, ref, lone)
  {
    hide IsCredit;
    var i :| 0 <= i < |ys| && ys[i] in y && StillUnpaid(y[ys[i]]) && IsCredit(e, y[ys[i]], ys[i], ref, lone);
    StillCredit(x, y, xs, now, ys[i]);
    assert (xs + ys)[|xs| + i] == ys[i];
  }

  lemma RecordedLater(l: seq<Entry>, m: seq<Entry>, reference: string)
    requires Recorded(l, reference) && l <= m
    ensures Recorded(m, reference)
  {
    var k :| 0 <= k < |l| && l[k].reference == reference;
    assert m[k] == l[k];
  }

  lemma BoughtMore(x: map<OrderId, Order>, y: map<OrderId, Order>, xs: seq<OrderId>, ys: seq<OrderId>, now: int,
                   f: OfferId)
    requires AllConfirmed(x, y, xs, now)
    ensures BoughtIn(x, xs + ys, f) <==> BoughtIn(x, xs, f) || BoughtIn(y, ys, f)
  {
    var rows := xs + ys;
    if BoughtIn(x, rows, f) {
      var i, j :| 0 <= i < |rows| && rows[i] in x && StillUnpaid(x[rows[i]])
                  && 0 <= j < |x[rows[i]].lines| && x[rows[i]].lines[j].deal == Some(f);
      if rows[i] in xs {
        var k :| 0 <= k < |xs| && xs[k] == rows[i];
        assert xs[k] in x && x[xs[k]].lines[j].deal == Some(f);
        assert BoughtIn(x, xs, f);
      } else {
        assert rows[i] == ys[i - |xs|] && y[rows[i]] == x[rows[i]];
        assert BoughtIn(y, ys, f);
      }
    }
    if BoughtIn(x, xs, f) {
      var i, j :| 0 <= i < |xs| && xs[i] in x && StillUnpaid(x[xs[i]])
                  && 0 <= j < |x[xs[i]].lines| && x[xs[i]].lines[j].deal == Some(f);
      assert rows[i] == xs[i];
    }
    if BoughtIn(y, ys, f) {
      var i, j :| 0 <= i < |ys| && ys[i] in y && StillUnpaid(y[ys[i]])
                  && 0 <= j < |y[ys[i]].lines| && y[ys[i]].lines[j].deal == Some(f);
      StillCredit(x, y, xs, now, ys[i]);
      assert rows[|xs| + i] == ys[i];
    }
  }

  lemma MoreRedeemed(x: map<OrderId, Order>, y: map<OrderId, Order>, o: map<OfferId, Offer>, p: map<OfferId, Offer>,
                     q: map<OfferId, Offer>, xs: seq<OrderId>, ys: seq<OrderId>, now: int)
    requires AllConfirmed(x, y, xs, now) && AllRedeemed(x, o, p, xs) && AllRedeemed(y, p, q, ys)
    ensures AllRedeemed(x, o, q, xs + ys)
  {
    forall f | f in o
      ensures if BoughtIn(x, xs + ys, f) && (o[f].status == Accepted || o[f].status == Expired)
              then q[f].status == Redeemed && q[f].agreed == o[f].agreed
              else q[f] == o[f]
    {
      BoughtMore(x, y, xs, ys, now, f);
      hide BoughtIn, AllConfirmed;
    }
  }
}
