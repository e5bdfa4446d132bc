/** The auto-release sweep when nothing interleaves with it: exactly the overdue orders are
    delivered and paid out, and a second sweep finds nothing to do. */
module AutoRelease {
  import opened Base
  import opened Ledger
  import opened Orders
  import opened Market

  function AutoDelivered(o: Order, now: int): Order {
    o.(status := Delivered, delivered := Some(now), confirmed := Some(now), reasons := o.reasons + {AutoReleased})
  }

  /** These orders are delivered and confirmed as of now; every other order is as it was. */
  ghost predicate AllDelivered(before: map<OrderId, Order>, after: map<OrderId, Order>, rows: seq<OrderId>, now: int) {
    && after.Keys == before.Keys
    && forall id :: id in before ==> after[id] == if id in rows then AutoDelivered(before[id], now) else before[id]
  }

  lemma NoneYet(orders: map<OrderId, Order>, l: seq<Entry>, now: int)
    ensures AllDelivered(orders, orders, [], now) && AllReleased(l, l, [])
  {
  }

  lemma TwoWrites(orders: map<OrderId, Order>, id: OrderId, now: int)
    requires id in orders
    ensures var marked := orders[id].(status := Delivered, delivered := Some(now), confirmed := Some(now));
            orders[id := marked][id := marked.(reasons := marked.reasons + {AutoReleased})]
            == orders[id := AutoDelivered(orders[id], now)]
  {
  }

  lemma FreshRow(rows: seq<OrderId>, i: int)
    requires NoDuplicates(rows) && 0 <= i < |rows|
    ensures rows[..i + 1] == rows[..i] + [rows[i]] && rows[i] !in rows[..i]
  {
  }

  lemma OneDelivered(before: map<OrderId, Order>, after: map<OrderId, Order>, rows: seq<OrderId>, now: int, id: OrderId)
    requires AllDelivered(before, after, rows, now) && id in before && id !in rows
    ensures id in after && after[id] == before[id]
    ensures AllDelivered(before, after[id := AutoDelivered(after[id], now)], rows + [id], now)
  {
  }

  lemma OneReleased(before: seq<Entry>, after: seq<Entry>, rows: seq<OrderId>, id: OrderId)
    requires AllReleased(before, after, rows)
    ensures AllReleased(before, Apply(after, id, Release), rows + [id])
  {
  }

  function Sweeps(sid: SessionId, n: nat): seq<Step> {
    if n == 0 then [] else [Sweep(sid)] + Sweeps(sid, n - 1)
  }

  /** A sweep's steps in the machine: the read, two writes an order, and the end of the loop. */
  function SweepSteps(sid: SessionId, rows: seq<OrderId>): seq<Step> {
    [BeginSweep(sid, rows)] + Sweeps(sid, 2 * |rows| + 1)
  }

  lemma Mark(s: State, sid: SessionId, rows: seq<OrderId>, pos: nat)
    requires sid in s.sessions && s.sessions[sid] == Sweeping(rows, pos, false) && pos < |rows|
    requires rows[pos] in s.orders && s.orders[rows[pos]].status.Shipped?
    ensures var id := rows[pos];
            var marked := s.orders[id].(status := Delivered, delivered := Some(s.now), confirmed := Some(s.now));
            SweepStep(s, sid).state
            == s.(orders := s.orders[id := marked], sessions := s.sessions[sid := Sweeping(rows, pos, true)])
  {
    hide Apply, HasHeld;
    KeepChangesNothing(s.ledger, rows[pos]);
  }

  lemma ReleaseMarked(s: State, sid: SessionId, rows: seq<OrderId>, pos: nat)
    requires sid in s.sessions && s.sessions[sid] == Sweeping(rows, pos, true) && pos < |rows|
    requires rows[pos] in s.orders
    ensures var id := rows[pos];
            SweepStep(s, sid).state
            == s.(orders := s.orders[id := s.orders[id].(reasons := s.orders[id].reasons + {AutoReleased})],
                  ledger := Apply(s.ledger, id, Release),
                  sessions := s.sessions[sid := Sweeping(rows, pos + 1, false)])
  {
    hide Apply, HasHeld;
  }

  /** The two writes on one shipped order. */
  lemma MarkAndRelease(s: State, sid: SessionId, rows: seq<OrderId>, pos: nat)
    requires sid in s.sessions && s.sessions[sid] == Sweeping(rows, pos, false) && pos < |rows|
    requires rows[pos] in s.orders && s.orders[rows[pos]].status.Shipped?
    ensures var id := rows[pos];
            Next(Next(s, Sweep(sid)).state, Sweep(sid)).state
            == s.(orders := s.orders[id := AutoDelivered(s.orders[id], s.now)],
                  ledger := Apply(s.ledger, id, Release),
                  sessions := s.sessions[sid := Sweeping(rows, pos + 1, false)])
  {
    hide Next, SweepStep, Apply;
    var id := rows[pos];
    NextSweep(s, sid);
    Mark(s, sid, rows, pos);
    var mid := SweepStep(s, sid).state;
    NextSweep(mid, sid);
    ReleaseMarked(mid, sid, rows, pos);
    assert mid.orders[id := AutoDelivered(s.orders[id], s.now)] == s.orders[id := AutoDelivered(s.orders[id], s.now)];
    assert mid.sessions[sid := Sweeping(rows, pos + 1, false)] == s.sessions[sid := Sweeping(rows, pos + 1, false)];
  }

  lemma FirstDelivered(before: map<OrderId, Order>, after: map<OrderId, Order>, rows: seq<OrderId>, now: int,
                       id: OrderId)
    requires id in before && id !in rows
    requires AllDelivered(before[id := AutoDelivered(before[id], now)], after, rows, now)
    ensures AllDelivered(before, after, [id] + rows, now)
  {
  }

  lemma FirstReleased(before: seq<Entry>, after: seq<Entry>, rows: seq<OrderId>, id: OrderId)
    requires AllReleased(Apply(before, id, Release), after, rows)
    ensures AllReleased(before, after, [id] + rows)
  {
    hide Apply;
  }

  lemma TwoSweeps(s: State, sid: SessionId, n: nat)
    ensures Run(s, Sweeps(sid, n + 2)) == Run(Next(Next(s, Sweep(sid)).state, Sweep(sid)).state, Sweeps(sid, n))
  {
    hide Next;
    var xs := Sweeps(sid, n + 2);
    assert xs[0] == Sweep(sid) && xs[1..] == Sweeps(sid, n + 1);
    assert xs[1..][0] == Sweep(sid) && xs[1..][1..] == Sweeps(sid, n);
  }

  lemma LastSweep(s: State, sid: SessionId, rows: seq<OrderId>)
    requires sid in s.sessions && s.sessions[sid] == Sweeping(rows, |rows|, false)
    ensures Run(s, Sweeps(sid, 1)) == Close(s, sid)
  {
    var xs := Sweeps(sid, 1);
    assert Sweeps(sid, 0) == [] && xs == [Sweep(sid)] + [];
    assert Run(Close(s, sid), []) == Close(s, sid);
  }

  lemma {:induction false} SweepRest(s: State, sid: SessionId, rows: seq<OrderId>, pos: nat)
    requires sid in s.sessions && s.sessions[sid] == Sweeping(rows, pos, false) && pos <= |rows| && NoDuplicates(rows)
    requires forall i :: pos <= i < |rows| ==> rows[i] in s.orders && s.orders[rows[i]].status.Shipped?
    ensures var t := Run(s, Sweeps(sid, 2 * (|rows| - pos) + 1));
            && t == s.(orders := t.orders, ledger := t.ledger, sessions := s.sessions - {sid})
            && AllDelivered(s.orders, t.orders, rows[pos..], s.now)
            && AllReleased(s.ledger, t.ledger, rows[pos..])
    decreases |rows| - pos
  {
    hide Next, Apply, Run, Sweeps;
    if pos == |rows| {
      LastSweep(s, sid, rows);
    } else {
      hide AllDelivered, AllReleased;
      var id, n := rows[pos], 2 * (|rows| - pos) - 1;
      var second := Next(Next(s, Sweep(sid)).state, Sweep(sid)).state;
      TwoSweeps(s, sid, n);
      MarkAndRelease(s, sid, rows, pos);
      SweepRest(second, sid, rows, pos + 1);
      var t := Run(second, Sweeps(sid, n));
      assert second.sessions - {sid} == s.sessions - {sid} && rows[pos..] == [id] + rows[pos + 1..];
      FirstDelivered(s.orders, t.orders, rows[pos + 1..], s.now, id);
      FirstReleased(s.ledger, t.ledger, rows[pos + 1..], id);
    }
  }

  lemma DueAre(orders: map<OrderId, Order>, rows: seq<OrderId>, cutoff: int)
    requires DueRows(orders, rows, cutoff)
    ensures NoDuplicates(rows)
    ensures forall i :: 0 <= i < |rows| ==> rows[i] in orders && orders[rows[i]].status.Shipped?
    ensures forall id :: id in rows <==> id in orders && Overdue(orders[id], cutoff)
  {
  }

  /** Undisturbed, the machine's sweep delivers and releases exactly its rows. */
  lemma {:induction false} SweepUndisturbed(s: State, sid: SessionId, rows: seq<OrderId>)
    requires sid !in s.sessions && DueRows(s.orders, rows, s.now - ESCROW_WINDOW)
    ensures var t := Run(s, SweepSteps(sid, rows));
            && t == s.(orders := t.orders, ledger := t.ledger)
            && AllDelivered(s.orders, t.orders, rows, s.now) && AllReleased(s.ledger, t.ledger, rows)
  {
    hide *;
    var begun := WithSession(s, sid, Sweeping(rows, 0, false));
    DueAre(s.orders, rows, s.now - ESCROW_WINDOW);
    FirstStep(s, sid, rows);
    SessionOpened(s, sid, rows);
    SweepRest(begun, sid, rows, 0);
    assert rows[0..] == rows;
  }

  lemma SessionOpened(s: State, sid: SessionId, rows: seq<OrderId>)
    requires sid !in s.sessions
    ensures var begun := WithSession(s, sid, Sweeping(rows, 0, false));
            && begun == s.(sessions := begun.sessions)
            && sid in begun.sessions && begun.sessions[sid] == Sweeping(rows, 0, false)
            && begun.sessions - {sid} == s.sessions
  {
  }

  lemma FirstStep(s: State, sid: SessionId, rows: seq<OrderId>)
    requires sid !in s.sessions && DueRows(s.orders, rows, s.now - ESCROW_WINDOW)
    ensures Run(s, SweepSteps(sid, rows)) == Run(WithSession(s, sid, Sweeping(rows, 0, false)),
                                                 Sweeps(sid, 2 * |rows| + 1))
  {
    SweepBegins(s, sid, rows);
    hide Next, Sweeps, DueRows, WithSession;
    var steps := SweepSteps(sid, rows);
    assert steps[0] == BeginSweep(sid, rows) && steps[1..] == Sweeps(sid, 2 * |rows| + 1);
  }

  lemma SweepBegins(s: State, sid: SessionId, rows: seq<OrderId>)
    requires sid !in s.sessions && DueRows(s.orders, rows, s.now - ESCROW_WINDOW)
    ensures Next(s, BeginSweep(sid, rows)).state == WithSession(s, sid, Sweeping(rows, 0, false))
  {
    hide DueRows;
  }

  /** There is one such result, so it is also the machine's. */
  lemma SweepDoes(s: State, sid: SessionId, rows: seq<OrderId>, orders: map<OrderId, Order>, l: seq<Entry>)
    requires sid !in s.sessions && DueRows(s.orders, rows, s.now - ESCROW_WINDOW)
    requires AllDelivered(s.orders, orders, rows, s.now) && AllReleased(s.ledger, l, rows)
    ensures Run(s, SweepSteps(sid, rows)) == s.(orders := orders, ledger := l)
  {
    hide DueRows, Run, SweepSteps;
    SweepUndisturbed(s, sid, rows);
    var t := Run(s, SweepSteps(sid, rows));
    assert t.orders == orders;
    assert t.ledger == l;
  }

  /** A second auto-release at the same cutoff has nothing to do: its query finds no row. */
  lemma AutoReleaseTwice(before: map<OrderId, Order>, after: map<OrderId, Order>, rows: seq<OrderId>, now: int)
    requires DueRows(before, rows, now - ESCROW_WINDOW) && AllDelivered(before, after, rows, now)
    ensures DueRows(after, [], now - ESCROW_WINDOW)
  {
    forall id | id in after ensures !Overdue(after[id], now - ESCROW_WINDOW) {
      assert id in before;
    }
  }
}
