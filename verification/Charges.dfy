/** What a charge pays for: sums of order totals, and the orders of a reference that its charge
    covers. */
module Charges {
  import opened Base
  import opened Orders
  import opened Market
  import opened Tables

  // ---------- Sums ----------

  lemma SumFollows(x: map<OrderId, Order>, y: map<OrderId, Order>, rows: seq<OrderId>)
    requires OrdersFollow(x, y) && forall i :: 0 <= i < |rows| ==> rows[i] in x
    ensures SumTotals(x, rows) == SumTotals(y, rows)
  {
    if rows != [] {
      assert OrderFollows(x[rows[0]], y[rows[0]]);
      SumFollows(x, y, rows[1..]);
    }
  }

  lemma {:induction false} SumSplit(orders: map<OrderId, Order>, xs: seq<OrderId>, ys: seq<OrderId>)
    ensures SumTotals(orders, xs + ys) == SumTotals(orders, xs) + SumTotals(orders, ys)
  {
    if xs == [] {
      assert xs + ys == ys;
    } else {
      assert (xs + ys)[1..] == xs[1..] + ys;
      SumSplit(orders, xs[1..], ys);
    }
  }

  lemma TakeOut(xs: seq<OrderId>, j: int)
    requires 0 <= j < |xs|
    ensures multiset(xs[..j] + xs[j + 1..]) == multiset(xs) - multiset{xs[j]}
  {
    assert xs == xs[..j] + [xs[j]] + xs[j + 1..];
  }

  lemma SumTakeOut(orders: map<OrderId, Order>, xs: seq<OrderId>, j: int)
    requires 0 <= j < |xs|
    ensures SumTotals(orders, xs) == SumTotals(orders, [xs[j]]) + SumTotals(orders, xs[..j] + xs[j + 1..])
  {
    assert xs == xs[..j] + ([xs[j]] + xs[j + 1..]);
    SumSplit(orders, xs[..j], [xs[j]] + xs[j + 1..]);
    SumSplit(orders, [xs[j]], xs[j + 1..]);
    SumSplit(orders, xs[..j], xs[j + 1..]);
  }

  lemma TakeHead(xs: seq<OrderId>)
    requires xs != []
    ensures multiset(xs[1..]) == multiset(xs) - multiset{xs[0]}
  {
    assert xs == [xs[0]] + xs[1..];
  }

  lemma Find(xs: seq<OrderId>, x: OrderId) returns (j: int)
    requires x in multiset(xs)
    ensures 0 <= j < |xs| && xs[j] == x
  {
    j :| 0 <= j < |xs| && xs[j] == x;
  }

  lemma Match(xs: seq<OrderId>, ys: seq<OrderId>) returns (j: int)
    requires xs != [] && multiset(xs) == multiset(ys)
    ensures 0 <= j < |ys| && ys[j] == xs[0]
    ensures multiset(xs[1..]) == multiset(ys[..j] + ys[j + 1..])
  {
    j := Find(ys, xs[0]);
    TakeHead(xs);
    TakeOut(ys, j);
  }

  /** Verification sums the same amount in whatever order the rows come back. */
  lemma {:induction false} SumPermutation(orders: map<OrderId, Order>, xs: seq<OrderId>, ys: seq<OrderId>)
    requires multiset(xs) == multiset(ys)
    ensures SumTotals(orders, xs) == SumTotals(orders, ys) && |xs| == |ys|
    decreases |xs|
  {
    hide SumTotals;
    if xs == [] {
      EmptyRows(ys);
    } else {
      var j := Match(xs, ys);
      assert xs[..0] + xs[1..] == xs[1..];
      SumTakeOut(orders, xs, 0);
      SumTakeOut(orders, ys, j);
      SumPermutation(orders, xs[1..], ys[..j] + ys[j + 1..]);
    }
  }

  lemma EmptyRows(ys: seq<OrderId>)
    requires multiset(ys) == multiset{}
    ensures ys == []
  {
    assert |multiset(ys)| == |ys|;
  }

  lemma SumSame(x: map<OrderId, Order>, y: map<OrderId, Order>, rows: seq<OrderId>)
    requires forall i :: 0 <= i < |rows| ==> rows[i] in x && rows[i] in y && x[rows[i]] == y[rows[i]]
    ensures SumTotals(x, rows) == SumTotals(y, rows)
  {
  }

  ghost predicate Positive(orders: map<OrderId, Order>, rows: seq<OrderId>) {
    forall i :: 0 <= i < |rows| ==> rows[i] in orders && orders[rows[i]].total > 0
  }

  lemma {:induction false} SumPositive(orders: map<OrderId, Order>, rows: seq<OrderId>)
    requires Positive(orders, rows) && rows != []
    ensures SumTotals(orders, rows) > 0
  {
    if |rows| > 1 { SumPositive(orders, rows[1..]); }
  }

  lemma SameNoDuplicates(xs: seq<OrderId>, ys: seq<OrderId>)
    requires multiset(xs) == multiset(ys) && NoDuplicates(xs)
    ensures NoDuplicates(ys)
  {
    forall i, j | 0 <= i < j < |ys| ensures ys[i] != ys[j] {
      if ys[i] == ys[j] {
        Twice(ys, i, j);
        Once(xs, ys[i]);
      }
    }
  }

  lemma Twice(rows: seq<OrderId>, i: int, j: int)
    requires 0 <= i < j < |rows| && rows[i] == rows[j]
    ensures multiset(rows)[rows[i]] >= 2
  {
    assert rows == rows[..i] + [rows[i]] + rows[i + 1..j] + [rows[j]] + rows[j + 1..];
  }

  lemma {:induction false} Once(rows: seq<OrderId>, id: OrderId)
    requires NoDuplicates(rows)
    ensures multiset(rows)[id] <= 1
    decreases |rows|
  {
    if rows != [] {
      assert rows == [rows[0]] + rows[1..];
      Once(rows[1..], id);
    }
  }

  // ---------- What a charge covers ----------

  /** The shortest non-empty beginning of the rows that adds up to the amount; 0 if none does. */
  function FirstMatch(orders: map<OrderId, Order>, rows: seq<OrderId>, amount: int): (k: nat)
    ensures k <= |rows|
    decreases |rows|
  {
    if rows == [] then 0
    else
      var k := FirstMatch(orders, rows[..|rows| - 1], amount);
      if k > 0 then k else if SumTotals(orders, rows) == amount then |rows| else 0
  }

  /** The orders of a reference that its charge can pay for. Orders are only ever added to a
      reference, and every total is positive, so there is one such set at most. */
  function Paying(orders: map<OrderId, Order>, index: map<Ref, seq<OrderId>>, charges: map<Ref, int>, ref: Ref)
    : (rows: seq<OrderId>)
    ensures rows <= RowsOf(index, ref)
  {
    if ref in charges
    then RowsOf(index, ref)[..FirstMatch(orders, RowsOf(index, ref), charges[ref])]
    else []
  }

  lemma {:induction false} MatchSums(orders: map<OrderId, Order>, rows: seq<OrderId>, amount: int)
    ensures var k := FirstMatch(orders, rows, amount); k > 0 ==> SumTotals(orders, rows[..k]) == amount
    decreases |rows|
  {
    hide SumTotals;
    if rows != [] {
      var n := |rows| - 1;
      MatchSums(orders, rows[..n], amount);
      var k := FirstMatch(orders, rows[..n], amount);
      if k > 0 {
        assert rows[..n][..k] == rows[..k];
      } else {
        assert rows[..|rows|] == rows;
      }
    }
  }

  lemma {:induction false} MatchSame(x: map<OrderId, Order>, y: map<OrderId, Order>, rows: seq<OrderId>, amount: int)
    requires forall i :: 0 <= i < |rows| ==> rows[i] in x && rows[i] in y && x[rows[i]].total == y[rows[i]].total
    ensures FirstMatch(x, rows, amount) == FirstMatch(y, rows, amount)
    decreases |rows|
  {
    if rows != [] {
      MatchSame(x, y, rows[..|rows| - 1], amount);
      TotalsSame(x, y, rows);
      hide SumTotals;
    }
  }

  lemma TotalsSame(x: map<OrderId, Order>, y: map<OrderId, Order>, rows: seq<OrderId>)
    requires forall i :: 0 <= i < |rows| ==> rows[i] in x && rows[i] in y && x[rows[i]].total == y[rows[i]].total
    ensures SumTotals(x, rows) == SumTotals(y, rows)
  {
  }

  /** A match once found stays the match, whatever is added. */
  lemma {:induction false} MatchGrows(orders: map<OrderId, Order>, rows: seq<OrderId>, more: seq<OrderId>, amount: int)
    requires FirstMatch(orders, rows, amount) > 0
    ensures FirstMatch(orders, rows + more, amount) == FirstMatch(orders, rows, amount)
    decreases |more|
  {
    hide SumTotals;
    if more == [] {
      assert rows + more == rows;
    } else {
      var n := |more| - 1;
      MatchGrows(orders, rows, more[..n], amount);
      assert (rows + more)[..|rows + more| - 1] == rows + more[..n];
    }
  }

  /** If all the rows add up to the amount, no shorter beginning does. */
  lemma MatchWhole(orders: map<OrderId, Order>, rows: seq<OrderId>, amount: int)
    requires Positive(orders, rows) && rows != [] && SumTotals(orders, rows) == amount
    ensures FirstMatch(orders, rows, amount) == |rows|
  {
    var n := |rows| - 1;
    var k := FirstMatch(orders, rows[..n], amount);
    MatchSums(orders, rows[..n], amount);
    if k > 0 {
      assert rows[..n][..k] == rows[..k] && rows == rows[..k] + rows[k..];
      SumSplit(orders, rows[..k], rows[k..]);
      SumPositive(orders, rows[k..]);
      assert false;
    }
  }

  lemma PayingSums(orders: map<OrderId, Order>, index: map<Ref, seq<OrderId>>, charges: map<Ref, int>, ref: Ref)
    requires Paying(orders, index, charges, ref) != []
    ensures ref in charges && SumTotals(orders, Paying(orders, index, charges, ref)) == charges[ref]
  {
    MatchSums(orders, RowsOf(index, ref), charges[ref]);
  }

  lemma PayingSame(x: map<OrderId, Order>, y: map<OrderId, Order>, index: map<Ref, seq<OrderId>>,
                   charges: map<Ref, int>, ref: Ref)
    requires OrdersFollow(x, y) && forall i :: 0 <= i < |RowsOf(index, ref)| ==> RowsOf(index, ref)[i] in x
    ensures Paying(y, index, charges, ref) == Paying(x, index, charges, ref)
  {
    var rows := RowsOf(index, ref);
    forall i | 0 <= i < |rows| ensures rows[i] in y && x[rows[i]].total == y[rows[i]].total {
      assert OrderFollows(x[rows[i]], y[rows[i]]);
    }
    hide FirstMatch, OrdersFollow;
    if ref in charges { MatchSame(x, y, rows, charges[ref]); }
  }

  lemma PayingGrows(x: map<OrderId, Order>, y: map<OrderId, Order>, index: map<Ref, seq<OrderId>>,
                    after: map<Ref, seq<OrderId>>, charges: map<Ref, int>, ref: Ref)
    requires OrdersFollow(x, y) && forall i :: 0 <= i < |RowsOf(index, ref)| ==> RowsOf(index, ref)[i] in x
    requires RowsOf(index, ref) <= RowsOf(after, ref)
    requires Paying(x, index, charges, ref) != [] || RowsOf(index, ref) == RowsOf(after, ref)
    ensures Paying(y, after, charges, ref) == Paying(x, index, charges, ref)
  {
    var rows, all := RowsOf(index, ref), RowsOf(after, ref);
    PayingSame(x, y, index, charges, ref);
    hide FirstMatch, OrdersFollow;
    if ref in charges && rows != all {
      var more := all[|rows|..];
      assert all == rows + more;
      MatchGrows(y, rows, more, charges[ref]);
    }
  }

  /** A call that has verified its sum has read exactly what the charge covers. */
  lemma PayingWhole(orders: map<OrderId, Order>, index: map<Ref, seq<OrderId>>, charges: map<Ref, int>, ref: Ref,
                    rows: seq<OrderId>)
    requires multiset(rows) == multiset(RowsOf(index, ref)) && rows != [] && Positive(orders, RowsOf(index, ref))
    requires ref in charges && charges[ref] == SumTotals(orders, rows)
    ensures Paying(orders, index, charges, ref) == RowsOf(index, ref) && |rows| == |RowsOf(index, ref)|
  {
    var own := RowsOf(index, ref);
    SumPermutation(orders, rows, own);
    hide SumTotals;
    if own == [] { EmptyRows(rows); }
    MatchWhole(orders, own, charges[ref]);
    assert own[..|own|] == own;
  }
}
