/** The wallet ledger: rows, the three status updates, and its aggregate queries. */
module Ledger {
  import opened Base

  datatype Kind = Credit | Debit

  /** `Held` is the stored status 'pending'. */
  datatype WalletStatus = Held | Completed | Failed

  /** `released` says released_at is set; voiding a credit does not clear it. */
  datatype Entry = Entry(
    store: StoreId, kind: Kind, amount: int, reference: string,
    order: Option<OrderId>, status: WalletStatus, released: bool)

  // ---------- Updates ----------

  /** The three UPDATE statements on the rows of one order. */
  datatype Effect = Keep | Release | VoidHeld | VoidLive

  function Shift(e: Entry, id: OrderId, fx: Effect): Entry {
    if e.order != Some(id) then e
    else
      match fx
      case Keep => e
      case Release => if e.status.Held? then e.(status := Completed, released := true) else e
      case VoidHeld => if e.status.Held? then e.(status := Failed) else e
      case VoidLive => if e.status.Held? || e.status.Completed? then e.(status := Failed) else e
  }

  function Apply(l: seq<Entry>, id: OrderId, fx: Effect): (r: seq<Entry>)
    ensures |r| == |l|
    ensures forall i :: 0 <= i < |l| ==> r[i] == Shift(l[i], id, fx)
  {
    if l == [] then [] else [Shift(l[0], id, fx)] + Apply(l[1..], id, fx)
  }

  /** The pending credits of these orders are completed; every other row is as it was. */
  ghost predicate AllReleased(before: seq<Entry>, after: seq<Entry>, rows: seq<OrderId>) {
    && |after| == |before|
    && forall k :: 0 <= k < |after| ==>
         after[k] == if before[k].status.Held? && before[k].order.Some? && before[k].order.value in rows
                     then before[k].(status := Completed, released := true)
                     else before[k]
  }

  /** The held credits of these orders have failed; every other row is as it was. */
  ghost predicate Voided(before: seq<Entry>, after: seq<Entry>, ids: seq<OrderId>) {
    && |after| == |before|
    && forall k :: 0 <= k < |after| ==>
         after[k] == if before[k].status.Held? && before[k].order.Some? && before[k].order.value in ids
                     then before[k].(status := Failed)
                     else before[k]
  }

  /** The pending and the completed credits of one order have failed; every other row is as it was. */
  ghost predicate TakenBack(before: seq<Entry>, after: seq<Entry>, id: OrderId) {
    && |after| == |before|
    && forall k :: 0 <= k < |after| ==>
         after[k] == if (before[k].status.Held? || before[k].status.Completed?) && before[k].order == Some(id)
                     then before[k].(status := Failed)
                     else before[k]
  }

  lemma UpdatesAre(l: seq<Entry>, id: OrderId)
    ensures Apply(l, id, Keep) == l
    ensures AllReleased(l, Apply(l, id, Release), [id])
    ensures Voided(l, Apply(l, id, VoidHeld), [id])
    ensures TakenBack(l, Apply(l, id, VoidLive), id)
  {
    KeepChangesNothing(l, id);
    hide Apply;
  }

  lemma KeepChangesNothing(l: seq<Entry>, id: OrderId)
    ensures Apply(l, id, Keep) == l
  {
  }

  predicate Taken(l: seq<Entry>, reference: string) {
    exists i :: 0 <= i < |l| && l[i].reference == reference
  }

  /** INSERT ... ON CONFLICT (reference) DO NOTHING. */
  function Insert(l: seq<Entry>, e: Entry): seq<Entry> {
    if Taken(l, e.reference) then l else l + [e]
  }

  // ---------- Aggregates ----------

  datatype Query =
    | Balance(store: StoreId)      // completed credits less completed debits
    | Earned(store: StoreId)       // completed credits
    | HeldBy(store: StoreId)       // pending credits
    | Clawed(store: StoreId)       // credits voided after they were released
    | HeldOn(id: OrderId)          // pending amounts of one order
    | PaidOn(id: OrderId)          // completed amounts of one order
    | RowsOn(id: OrderId)          // rows of one order

  function Weight(q: Query, e: Entry): int {
    match q
    case Balance(s) =>
      if e.store == s && e.status.Completed? then (if e.kind.Credit? then e.amount else -e.amount) else 0
    case Earned(s) => if e.store == s && e.status.Completed? && e.kind.Credit? then e.amount else 0
    case HeldBy(s) => if e.store == s && e.status.Held? && e.kind.Credit? then e.amount else 0
    case Clawed(s) => if e.store == s && e.status.Failed? && e.released && e.kind.Credit? then e.amount else 0
    case HeldOn(id) => if e.order == Some(id) && e.status.Held? then e.amount else 0
    case PaidOn(id) => if e.order == Some(id) && e.status.Completed? then e.amount else 0
    case RowsOn(id) => if e.order == Some(id) then 1 else 0
  }

  function Total(q: Query, l: seq<Entry>): int {
    if l == [] then 0 else Weight(q, l[0]) + Total(q, l[1..])
  }

  lemma {:induction false} TotalAppend(q: Query, l: seq<Entry>, e: Entry)
    ensures Total(q, l + [e]) == Total(q, l) + Weight(q, e)
  {
    if l == [] {
      assert l + [e] == [e];
    } else {
      assert (l + [e])[1..] == l[1..] + [e];
      TotalAppend(q, l[1..], e);
    }
  }

  lemma ApplyStep(l: seq<Entry>, id: OrderId, fx: Effect)
    requires l != []
    ensures Apply(l, id, fx)[0] == Shift(l[0], id, fx)
    ensures Apply(l, id, fx)[1..] == Apply(l[1..], id, fx)
  {
  }

  /** An update moves exactly the order's own money between its three columns. */
  lemma {:induction false} ApplyOnOrder(l: seq<Entry>, id: OrderId, fx: Effect)
    ensures Total(RowsOn(id), Apply(l, id, fx)) == Total(RowsOn(id), l)
    ensures Total(HeldOn(id), Apply(l, id, fx)) == if fx.Keep? then Total(HeldOn(id), l) else 0
    ensures Total(PaidOn(id), Apply(l, id, fx)) ==
            match fx {
              case Release => Total(PaidOn(id), l) + Total(HeldOn(id), l)
              case VoidLive => 0
              case _ => Total(PaidOn(id), l)
            }
  {
    if l != [] {
      ApplyStep(l, id, fx);
      ApplyOnOrder(l[1..], id, fx);
    }
  }

  /** An update leaves every other order's money alone. */
  lemma {:induction false} ApplyElsewhere(l: seq<Entry>, id: OrderId, fx: Effect, other: OrderId)
    requires other != id
    ensures Total(RowsOn(other), Apply(l, id, fx)) == Total(RowsOn(other), l)
    ensures Total(HeldOn(other), Apply(l, id, fx)) == Total(HeldOn(other), l)
    ensures Total(PaidOn(other), Apply(l, id, fx)) == Total(PaidOn(other), l)
  {
    if l != [] {
      ApplyStep(l, id, fx);
      ApplyElsewhere(l[1..], id, fx, other);
    }
  }

  /** Every row of an order is a credit for a positive amount, and was stamped if released. */
  ghost predicate OrderRowsSane(l: seq<Entry>) {
    forall i :: 0 <= i < |l| ==>
      && l[i].amount > 0
      && (l[i].order.Some? ==> l[i].kind.Credit? && (l[i].status.Completed? ==> l[i].released))
      && (l[i].status.Failed? || l[i].status.Held? ==> l[i].order.Some?)
  }

  lemma ApplySane(l: seq<Entry>, id: OrderId, fx: Effect)
    requires OrderRowsSane(l)
    ensures OrderRowsSane(Apply(l, id, fx))
  {
    var r := Apply(l, id, fx);
    hide Apply;
    forall i | 0 <= i < |r| ensures r[i].amount == l[i].amount && r[i] == Shift(l[i], id, fx) {
    }
  }

  /** A release moves held to earned one for one; a void takes from the balance only what it
      adds to the clawed-back total. */
  lemma {:induction false} ApplyOnWallet(l: seq<Entry>, id: OrderId, fx: Effect, store: StoreId)
    requires OrderRowsSane(l)
    ensures Total(Balance(store), Apply(l, id, fx)) + Total(Clawed(store), Apply(l, id, fx))
         >= Total(Balance(store), l) + Total(Clawed(store), l)
    ensures Total(Clawed(store), Apply(l, id, fx)) >= Total(Clawed(store), l)
    ensures fx.Release? ==>
              && Total(HeldBy(store), Apply(l, id, fx)) + Total(Earned(store), Apply(l, id, fx))
                 == Total(HeldBy(store), l) + Total(Earned(store), l)
              && Total(Balance(store), Apply(l, id, fx)) - Total(Balance(store), l)
                 == Total(Earned(store), Apply(l, id, fx)) - Total(Earned(store), l)
              && Total(Clawed(store), Apply(l, id, fx)) == Total(Clawed(store), l)
  {
    if l != [] {
      ApplyStep(l, id, fx);
      assert OrderRowsSane(l[1..]) && OrderRowsSane([l[0]]);
      ApplyOnWallet(l[1..], id, fx, store);
      ShiftOnWallet(l[0], id, fx, store);
      hide Apply, Weight, OrderRowsSane, Shift;
    }
  }

  lemma ShiftOnWallet(e: Entry, id: OrderId, fx: Effect, store: StoreId)
    requires OrderRowsSane([e])
    ensures var d := Shift(e, id, fx);
            && Weight(Balance(store), d) + Weight(Clawed(store), d)
               >= Weight(Balance(store), e) + Weight(Clawed(store), e)
            && Weight(Clawed(store), d) >= Weight(Clawed(store), e)
            && (fx.Release? ==>
                  && Weight(HeldBy(store), d) + Weight(Earned(store), d)
                     == Weight(HeldBy(store), e) + Weight(Earned(store), e)
                  && Weight(Balance(store), d) - Weight(Balance(store), e)
                     == Weight(Earned(store), d) - Weight(Earned(store), e)
                  && Weight(Clawed(store), d) == Weight(Clawed(store), e))
  {
    assert [e][0] == e;
  }

  // ---------- References ----------

  ghost predicate UniqueReferences(l: seq<Entry>) {
    forall i, j :: 0 <= i < j < |l| ==> l[i].reference != l[j].reference
  }

  /** Rows that must all carry one reference are at most one row. */
  lemma {:induction false} OneRow(l: seq<Entry>, id: OrderId, reference: string)
    requires UniqueReferences(l)
    requires forall i :: 0 <= i < |l| && l[i].order == Some(id) ==> l[i].reference == reference
    ensures 0 <= Total(RowsOn(id), l) <= 1
    ensures Total(RowsOn(id), l) == 1 ==> Taken(l, reference)
    ensures !Taken(l, reference) ==> Total(RowsOn(id), l) == 0
  {
    if l != [] {
      var t := l[1..];
      OneRow(t, id, reference);
      if l[0].order == Some(id) {
        assert l[0].reference == reference;
        forall i | 0 <= i < |t| ensures t[i].reference != reference {
          assert t[i] == l[i + 1];
        }
      }
      if Taken(t, reference) {
        var i :| 0 <= i < |t| && t[i].reference == reference;
        assert l[i + 1].reference == reference;
      }
    }
  }

  lemma {:induction false} NoRows(l: seq<Entry>, id: OrderId)
    requires forall i :: 0 <= i < |l| ==> l[i].order != Some(id)
    ensures Total(RowsOn(id), l) == 0 && Total(HeldOn(id), l) == 0 && Total(PaidOn(id), l) == 0
  {
    if l != [] {
      forall i | 0 <= i < |l[1..]| ensures l[1..][i].order != Some(id) {
        assert l[1..][i] == l[i + 1];
      }
      NoRows(l[1..], id);
    }
  }

  lemma {:induction false} HasRow(l: seq<Entry>, id: OrderId, i: int)
    requires 0 <= i < |l| && l[i].order == Some(id)
    ensures Total(RowsOn(id), l) >= 1
  {
    RowsNonNegative(l[1..], id);
    if i > 0 {
      assert l[1..][i - 1] == l[i];
      HasRow(l[1..], id, i - 1);
    }
  }

  lemma RowsNonNegative(l: seq<Entry>, id: OrderId)
    ensures Total(RowsOn(id), l) >= 0
  {
  }

  // ---------- The life of a row ----------

  /** The only moves a row's status makes, its amount and owner fixed. */
  ghost predicate RowFollows(before: Entry, after: Entry) {
    && after == before.(status := after.status, released := after.released)
    && (before.released ==> after.released)
    && match (before.status, after.status) {
         case (Held, _) => true
         case (Completed, Completed) => true
         case (Completed, Failed) => before.order.Some?
         case (Failed, Failed) => true
         case _ => false
       }
  }

  /** `after` is a later state of the ledger `before`: rows are never removed. */
  ghost predicate LedgerFollows(before: seq<Entry>, after: seq<Entry>) {
    |before| <= |after| && forall i :: 0 <= i < |before| ==> RowFollows(before[i], after[i])
  }

  lemma LedgerFollowsTransitive(a: seq<Entry>, b: seq<Entry>, c: seq<Entry>)
    requires LedgerFollows(a, b) && LedgerFollows(b, c)
    ensures LedgerFollows(a, c)
  {
    forall i | 0 <= i < |a| ensures RowFollows(a[i], c[i]) {
      assert RowFollows(a[i], b[i]) && RowFollows(b[i], c[i]);
    }
  }
}
