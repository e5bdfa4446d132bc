/** Dispatching a batch from the hub: what ships, what is refunded, what is left. */
module Batches {
  import opened Base
  import opened Ledger
  import opened Orders
  import opened Market
  import opened Service
  import opened Escrow
  import opened Confluence
  import opened Charges

  /** What dispatch does with one order. */
  datatype Fate = Passed | Ships | Refunds | Fails

  predicate Waiting(o: Order) {
    o.status.Confirmed? || o.status.AtHub?
  }

  function FateOf(o: Order, agrees: bool): (fate: Fate)
    ensures fate.Passed? <==> !Waiting(o)
    ensures fate.Ships? <==> Waiting(o) && o.hub.Some?
  {
    if !Waiting(o) then Passed
    else if o.hub.Some? then Ships
    else if CancelAndRefund(o, agrees, VendorNoShow).reply.Ok? then Refunds
    else Fails
  }

  /** The order afterwards. */
  function Dispatched(o: Order, agrees: bool, now: int): Order {
    match FateOf(o, agrees)
    case Ships => Act(o, Ship, now, false).order
    case Refunds => CancelAndRefund(o, agrees, VendorNoShow).order
    case _ => o
  }

  /** The batch's orders with a given fate, in the order they were read. */
  function Pick(orders: map<OrderId, Order>, rows: seq<OrderId>, agreed: set<OrderId>, fate: Fate): seq<OrderId> {
    if rows == [] then []
    else
      var id := rows[|rows| - 1];
      Pick(orders, rows[..|rows| - 1], agreed, fate) +
      (if id in orders && FateOf(orders[id], id in agreed) == fate then [id] else [])
  }

  lemma PickAppend(orders: map<OrderId, Order>, rows: seq<OrderId>, agreed: set<OrderId>, fate: Fate, id: OrderId)
    ensures Pick(orders, rows + [id], agreed, fate) ==
            Pick(orders, rows, agreed, fate)
            + (if id in orders && FateOf(orders[id], id in agreed) == fate then [id] else [])
  {
    assert (rows + [id])[..|rows|] == rows;
  }

  lemma {:induction false} PickMembers(orders: map<OrderId, Order>, rows: seq<OrderId>, agreed: set<OrderId>,
                                       fate: Fate, id: OrderId)
    ensures id in Pick(orders, rows, agreed, fate)
       <==> id in rows && id in orders && FateOf(orders[id], id in agreed) == fate
  {
    if rows != [] {
      PickMembers(orders, rows[..|rows| - 1], agreed, fate, id);
      assert rows == rows[..|rows| - 1] + [rows[|rows| - 1]];
    }
  }

  lemma {:induction false} PickCount(orders: map<OrderId, Order>, rows: seq<OrderId>, agreed: set<OrderId>,
                                     fate: Fate, id: OrderId)
    requires id in orders
    ensures multiset(Pick(orders, rows, agreed, fate))[id]
            == if FateOf(orders[id], id in agreed) == fate then multiset(rows)[id] else 0
    decreases |rows|
  {
    hide FateOf;
    if rows != [] {
      var n := |rows| - 1;
      PickCount(orders, rows[..n], agreed, fate, id);
      assert rows == rows[..n] + [rows[n]];
      PickAppend(orders, rows[..n], agreed, fate, rows[n]);
    }
  }

  /** Shipped, refunded and failed are exactly the orders that were waiting, each once. */
  lemma FatesPartition(orders: map<OrderId, Order>, rows: seq<OrderId>, agreed: set<OrderId>, id: OrderId)
    requires id in orders
    ensures var ships := multiset(Pick(orders, rows, agreed, Ships))[id];
            var refunds := multiset(Pick(orders, rows, agreed, Refunds))[id];
            var fails := multiset(Pick(orders, rows, agreed, Fails))[id];
            ships + refunds + fails == if Waiting(orders[id]) then multiset(rows)[id] else 0
  {
    hide FateOf, Pick, Waiting;
    PickCount(orders, rows, agreed, Ships, id);
    PickCount(orders, rows, agreed, Refunds, id);
    PickCount(orders, rows, agreed, Fails, id);
  }

  /** One order's dispatch, case by case. */
  lemma DispatchOne(o: Order, agrees: bool, now: int)
    ensures FateOf(o, agrees).Ships? ==> Dispatched(o, agrees, now) == o.(status := Shipped, dispatched := Some(now))
    ensures FateOf(o, agrees).Passed? || FateOf(o, agrees).Fails? ==> Dispatched(o, agrees, now) == o
    ensures Waiting(o) && o.hub.None? ==>
              var r := CancelAndRefund(o, agrees, VendorNoShow);
              && Dispatched(o, agrees, now) == r.order
              && (FateOf(o, agrees).Refunds? <==> r.reply.Ok?)
              && (FateOf(o, agrees).Fails? <==> !r.reply.Ok?)
  {
  }

  /** What becomes of an order, by its fate. It ships if it is waiting and reached the hub; if it did
      not, it is refunded when it was paid through Paystack, which agrees, and listed as failed
      otherwise; an order that is not waiting is passed over. */
  ghost predicate Dispatches(o: Order, after: Order, agrees: bool, now: int, fate: Fate) {
    var waiting := o.status == Confirmed || o.status == AtHub;
    && (fate == Ships <==> waiting && o.hub.Some?)
    && (fate == Refunds <==> waiting && o.hub == None && o.ref != "" && agrees)
    && (fate == Fails <==> waiting && o.hub == None && !(o.ref != "" && agrees))
    && after == match fate {
         case Ships => o.(status := Shipped, dispatched := Some(now))
         case Refunds => o.(status := Cancelled, cancelReason := Some(VendorNoShow), refunds := o.refunds + [o.total])
         case _ => o
       }
  }

  lemma DispatchIs(o: Order, agrees: bool, now: int)
    ensures Dispatches(o, Dispatched(o, agrees, now), agrees, now, FateOf(o, agrees))
  {
  }

  /** Every order of the batch is on the list of its fate, and dispatched accordingly. */
  ghost predicate ListedByFate(before: map<OrderId, Order>, after: map<OrderId, Order>, rows: seq<OrderId>,
                               agreed: set<OrderId>, now: int,
                               shipped: seq<OrderId>, refunded: seq<OrderId>, refundErrors: seq<OrderId>) {
    && after.Keys == before.Keys
    && (forall id :: id in before && id !in rows ==>
          after[id] == before[id] && id !in shipped && id !in refunded && id !in refundErrors)
    && (forall id :: id in before && id in rows ==>
          Dispatches(before[id], after[id], id in agreed, now,
                     if id in shipped then Ships else if id in refunded then Refunds
                     else if id in refundErrors then Fails else Passed))
  }

  lemma FatesListed(before: map<OrderId, Order>, after: map<OrderId, Order>, rows: seq<OrderId>, agreed: set<OrderId>,
                    now: int, shipped: seq<OrderId>, refunded: seq<OrderId>, refundErrors: seq<OrderId>)
    requires Sorted(before, rows, agreed, shipped, refunded, refundErrors)
    requires AllDispatched(before, after, rows, agreed, now)
    ensures ListedByFate(before, after, rows, agreed, now, shipped, refunded, refundErrors)
  {
    forall id | id in before
      ensures Dispatches(before[id], Dispatched(before[id], id in agreed, now), id in agreed, now,
                         FateOf(before[id], id in agreed))
      ensures id in shipped <==> id in rows && FateOf(before[id], id in agreed) == Ships
      ensures id in refunded <==> id in rows && FateOf(before[id], id in agreed) == Refunds
      ensures id in refundErrors <==> id in rows && FateOf(before[id], id in agreed) == Fails
    {
      DispatchIs(before[id], id in agreed, now);
      PickMembers(before, rows, agreed, Ships, id);
      PickMembers(before, rows, agreed, Refunds, id);
      PickMembers(before, rows, agreed, Fails, id);
    }
    hide Dispatches, Dispatched, FateOf, Pick;
  }

  /** What a second dispatch would do with an order the first has passed over, shipped,
      refunded or failed on. */
  lemma SecondFate(o: Order, agrees: bool, now: int, again: bool)
    ensures !FateOf(Dispatched(o, agrees, now), again).Ships?
    ensures !FateOf(Dispatched(o, agrees, now), again).Passed? <==> FateOf(o, agrees).Fails?
  {
  }

  lemma VoidedMore(before: seq<Entry>, between: seq<Entry>, after: seq<Entry>, ids: seq<OrderId>, more: seq<OrderId>)
    requires Voided(before, between, ids) && Voided(between, after, more)
    ensures Voided(before, after, ids + more)
  {
  }

  /** The orders read have been dispatched; every other order is as it was. */
  ghost predicate AllDispatched(before: map<OrderId, Order>, after: map<OrderId, Order>, rows: seq<OrderId>,
                                agreed: set<OrderId>, now: int) {
    && after.Keys == before.Keys
    && forall id :: id in before ==>
         after[id] == if id in rows then Dispatched(before[id], id in agreed, now) else before[id]
  }

  /** The three lists hold the batch's orders by fate. */
  ghost predicate Sorted(orders: map<OrderId, Order>, rows: seq<OrderId>, agreed: set<OrderId>,
                         shipped: seq<OrderId>, refunded: seq<OrderId>, refundErrors: seq<OrderId>) {
    && shipped == Pick(orders, rows, agreed, Ships)
    && refunded == Pick(orders, rows, agreed, Refunds)
    && refundErrors == Pick(orders, rows, agreed, Fails)
  }

  lemma SortedMore(orders: map<OrderId, Order>, rows: seq<OrderId>, agreed: set<OrderId>,
                   shipped: seq<OrderId>, refunded: seq<OrderId>, refundErrors: seq<OrderId>, id: OrderId)
    requires id in orders && Sorted(orders, rows, agreed, shipped, refunded, refundErrors)
    ensures match FateOf(orders[id], id in agreed) {
              case Passed => Sorted(orders, rows + [id], agreed, shipped, refunded, refundErrors)
              case Ships => Sorted(orders, rows + [id], agreed, shipped + [id], refunded, refundErrors)
              case Refunds => Sorted(orders, rows + [id], agreed, shipped, refunded + [id], refundErrors)
              case Fails => Sorted(orders, rows + [id], agreed, shipped, refunded, refundErrors + [id])
            }
  {
    PickAppend(orders, rows, agreed, Ships, id);
    PickAppend(orders, rows, agreed, Refunds, id);
    PickAppend(orders, rows, agreed, Fails, id);
    hide Pick, FateOf;
  }

  lemma OneByOne(before: map<OrderId, Order>, after: map<OrderId, Order>, rows: seq<OrderId>, agreed: set<OrderId>,
                 now: int, id: OrderId)
    requires AllDispatched(before, after, rows, agreed, now) && id in before
    ensures id in after && (id !in rows ==> after[id] == before[id])
    ensures id !in rows ==>
              AllDispatched(before, after[id := Dispatched(after[id], id in agreed, now)], rows + [id], agreed, now)
  {
  }

  /** How far a dispatch has come: the lists, the orders and the ledger after these rows. */
  ghost predicate Progress(was: map<OrderId, Order>, due: seq<Entry>, rows: seq<OrderId>, agreed: set<OrderId>,
                           now: int,
                           orders: map<OrderId, Order>, l: seq<Entry>,
                           shipped: seq<OrderId>, refunded: seq<OrderId>, refundErrors: seq<OrderId>) {
    && Sorted(was, rows, agreed, shipped, refunded, refundErrors)
    && AllDispatched(was, orders, rows, agreed, now)
    && Voided(due, l, refunded)
  }

  lemma ProgressMeans(was: map<OrderId, Order>, due: seq<Entry>, rows: seq<OrderId>, agreed: set<OrderId>, now: int,
                      orders: map<OrderId, Order>, l: seq<Entry>,
                      shipped: seq<OrderId>, refunded: seq<OrderId>, refundErrors: seq<OrderId>)
    requires Progress(was, due, rows, agreed, now, orders, l, shipped, refunded, refundErrors)
    ensures Sorted(was, rows, agreed, shipped, refunded, refundErrors)
    ensures AllDispatched(was, orders, rows, agreed, now)
    ensures Voided(due, l, refunded)
  {
  }

  lemma NoProgress(was: map<OrderId, Order>, due: seq<Entry>, agreed: set<OrderId>, now: int)
    ensures Progress(was, due, [], agreed, now, was, due, [], [], [])
  {
  }

  lemma NextRow(rows: seq<OrderId>, i: nat)
    requires NoDuplicates(rows) && i < |rows|
    ensures rows[..i + 1] == rows[..i] + [rows[i]] && rows[i] !in rows[..i]
  {
  }

  lemma ProgressKeys(was: map<OrderId, Order>, due: seq<Entry>, rows: seq<OrderId>, agreed: set<OrderId>, now: int,
                     orders: map<OrderId, Order>, l: seq<Entry>,
                     shipped: seq<OrderId>, refunded: seq<OrderId>, refundErrors: seq<OrderId>)
    requires Progress(was, due, rows, agreed, now, orders, l, shipped, refunded, refundErrors)
    ensures orders.Keys == was.Keys
  {
  }

  /** One more order dispatched, and listed by its fate. */
  lemma MoreProgress(was: map<OrderId, Order>, due: seq<Entry>, rows: seq<OrderId>, agreed: set<OrderId>, now: int,
                     orders: map<OrderId, Order>, l: seq<Entry>,
                     shipped: seq<OrderId>, refunded: seq<OrderId>, refundErrors: seq<OrderId>,
                     id: OrderId, after: seq<Entry>)
    requires Progress(was, due, rows, agreed, now, orders, l, shipped, refunded, refundErrors)
    requires id in orders && id !in rows
    requires Voided(l, after, if FateOf(orders[id], id in agreed).Refunds? then [id] else [])
    ensures var next := orders[id := Dispatched(orders[id], id in agreed, now)];
            match FateOf(orders[id], id in agreed) {
              case Passed => Progress(was, due, rows + [id], agreed, now, next, after, shipped, refunded, refundErrors)
              case Ships => Progress(was, due, rows + [id], agreed, now, next, after, shipped + [id], refunded,
                                     refundErrors)
              case Refunds => Progress(was, due, rows + [id], agreed, now, next, after, shipped, refunded + [id],
                                       refundErrors)
              case Fails => Progress(was, due, rows + [id], agreed, now, next, after, shipped, refunded,
                                     refundErrors + [id])
            }
  {
    hide Sorted, Voided, FateOf, Dispatched;
    OneByOne(was, orders, rows, agreed, now, id);
    assert id in was && orders[id] == was[id];
    hide AllDispatched;
    SortedMore(was, rows, agreed, shipped, refunded, refundErrors, id);
    VoidedMore(due, l, after, refunded, if FateOf(orders[id], id in agreed).Refunds? then [id] else []);
    assert refunded + [] == refunded;
  }

  /** The query gives the batch's orders, each once, in an order of its own. */
  lemma AnyOrder(rows: seq<OrderId>, orders: map<OrderId, Order>, index: map<Ref, seq<OrderId>>, ref: Ref)
    requires Enumerates(rows, index, ref) && NoDuplicates(RowsOf(index, ref))
    requires forall id :: id in RowsOf(index, ref) ==> id in orders
    ensures NoDuplicates(rows) && (rows == [] <==> RowsOf(index, ref) == [])
    ensures forall i :: 0 <= i < |rows| ==> rows[i] in orders
  {
    var own := RowsOf(index, ref);
    assert |multiset(rows)| == |rows| && |multiset(own)| == |own|;
    forall i | 0 <= i < |rows| ensures rows[i] in own {
      assert rows[i] in multiset(own);
    }
    SameNoDuplicates(own, rows);
  }

  class HubDesk {
    const service: OrdersService

    constructor (service: OrdersService)
      ensures this.service == service
    {
      this.service := service;
    }

    method HubIntake(id: OrderId) returns (r: Result<()>)
      modifies service`orders
      ensures Out(service.Tables(), r) == ActOn(old(service.Tables()), id, Move.HubIntake)
      ensures r.Ok? <==> id in old(service.orders) && old(service.orders)[id].status == Confirmed
      ensures service.orders == if r.Err? then old(service.orders)
                                else old(service.orders)[id := old(service.orders)[id].(status := AtHub,
                                                                                        hub := Some(service.now))]
    {
      if id !in service.orders { return Err(Internal); }
      KeepChangesNothing(service.ledger, id);
      SameRow(service.orders, id);
      var o := service.orders[id];
      if !o.status.Confirmed? { return Err(Internal); }
      service.orders := service.orders[id := o.(status := AtHub, hub := Some(service.now))];
      r := Ok(());
    }

    /** The manual override: it pays the vendor out and leaves the order's status alone. */
    method ReleaseEscrow(id: OrderId) returns (r: Result<()>)
      modifies service`orders, service`ledger
      ensures Out(service.Tables(), r) == ActOn(old(service.Tables()), id, Move.ReleaseEscrow)
      ensures r.Ok? <==> id in old(service.orders) && HasHeld(old(service.ledger), id)
      ensures r.Ok? ==> !HasHeld(service.ledger, id) && service.orders[id].status == old(service.orders)[id].status
      ensures r.Ok? <==> id in old(service.orders)
                         && exists k :: 0 <= k < |old(service.ledger)| && old(service.ledger)[k].order == Some(id)
                                        && old(service.ledger)[k].status == Held
      ensures if r.Ok?
              then AllReleased(old(service.ledger), service.ledger, [id])
                   && service.orders == old(service.orders)[id := old(service.orders)[id].(
                                          reasons := old(service.orders)[id].reasons + {AdminReleased})]
              else service.ledger == old(service.ledger) && service.orders == old(service.orders)
    {
      UpdatesAre(service.ledger, id);
      hide AllReleased, Voided, TakenBack;
      if id !in service.orders { return Err(Internal); }
      if !HasHeld(service.ledger, id) {
        KeepChangesNothing(service.ledger, id);
        SameRow(service.orders, id);
        return Err(Internal);
      }
      HeldShrinks(service.ledger, id, Release, id);
      var o := service.orders[id];
      service.ledger := Apply(service.ledger, id, Release);
      service.orders := service.orders[id := o.(reasons := o.reasons + {AdminReleased})];
      r := Ok(());
    }

    method DismissDispute(id: OrderId) returns (r: Result<()>)
      modifies service`orders
      ensures Out(service.Tables(), r) == ActOn(old(service.Tables()), id, Move.DismissDispute)
      ensures r.Ok? <==> id in old(service.orders) && old(service.orders)[id].dispute == Reported
      ensures service.orders == if r.Err? then old(service.orders)
                                else old(service.orders)[id := old(service.orders)[id].(dispute := Dismissed)]
    {
      if id !in service.orders { return Err(Internal); }
      KeepChangesNothing(service.ledger, id);
      SameRow(service.orders, id);
      var o := service.orders[id];
      if !o.dispute.Reported? { return Err(Internal); }
      service.orders := service.orders[id := o.(dispute := Dismissed)];
      r := Ok(());
    }

    /** The body of the dispatch loop, and the list the order belongs on. */
    method DispatchOrder(id: OrderId, agrees: bool) returns (fate: Fate)
      requires id in service.orders
      modifies service`orders, service`ledger
      ensures fate == FateOf(old(service.orders)[id], agrees)
      ensures service.orders == old(service.orders)[id := Dispatched(old(service.orders)[id], agrees, service.now)]
      ensures Dispatches(old(service.orders)[id], service.orders[id], agrees, service.now, fate)
      ensures Voided(old(service.ledger), service.ledger, if fate.Refunds? then [id] else [])
    {
      var o := service.orders[id];
      DispatchOne(o, agrees, service.now);
      DispatchIs(o, agrees, service.now);
      SameRow(service.orders, id);
      hide Dispatches, FateOf, Dispatched, CancelAndRefund, Act;
      if !Waiting(o) { return Passed; }
      if o.hub.Some? {
        service.orders := service.orders[id := o.(status := Shipped, dispatched := Some(service.now))];
        return Ships;
      }
      RefundFx(o, agrees);
      var r := service.NoShowRefund(id, agrees);
      fate := if r.Ok? then Refunds else Fails;
    }

    /** Everything that reached the hub ships; everything that did not is refunded, or listed
        with its failure. `agreed` is what Paystack would refund. */
    method DispatchBatch(ref: Ref, rows: seq<OrderId>, agreed: set<OrderId>)
      returns (found: bool, shipped: seq<OrderId>, refunded: seq<OrderId>, refundErrors: seq<OrderId>)
      requires Enumerates(rows, service.index, ref) && NoDuplicates(RowsOf(service.index, ref))
      requires forall id :: id in RowsOf(service.index, ref) ==> id in service.orders
      modifies service`orders, service`ledger
      ensures found <==> RowsOf(service.index, ref) != []
      ensures shipped == Pick(old(service.orders), rows, agreed, Ships)
      ensures refunded == Pick(old(service.orders), rows, agreed, Refunds)
      ensures refundErrors == Pick(old(service.orders), rows, agreed, Fails)
      ensures AllDispatched(old(service.orders), service.orders, rows, agreed, service.now)
      ensures ListedByFate(old(service.orders), service.orders, rows, agreed, service.now, shipped, refunded,
                           refundErrors)
      ensures Voided(old(service.ledger), service.ledger, refunded)
    {
      hide *;
      found, shipped, refunded, refundErrors := rows != [], [], [], [];
      ghost var was, due, now := service.orders, service.ledger, service.now;
      AnyOrder(rows, service.orders, service.index, ref);
      assert rows[..0] == [];
      NoProgress(was, due, agreed, now);
      var i := 0;
      while i < |rows|
        invariant 0 <= i <= |rows| && service.now == now
        invariant Progress(was, due, rows[..i], agreed, now, service.orders, service.ledger, shipped, refunded,
                           refundErrors)
      {
        var id := rows[i];
        ghost var orders, ledger := service.orders, service.ledger;
        NextRow(rows, i);
        ProgressKeys(was, due, rows[..i], agreed, now, orders, ledger, shipped, refunded, refundErrors);
        var fate := DispatchOrder(id, id in agreed);
        MoreProgress(was, due, rows[..i], agreed, now, orders, ledger, shipped, refunded, refundErrors, id,
                     service.ledger);
        match fate {
          case Passed =>
          case Ships => shipped := shipped + [id];
          case Refunds => refunded := refunded + [id];
          case Fails => refundErrors := refundErrors + [id];
        }
        i := i + 1;
      }
      assert rows[..i] == rows;
      ProgressMeans(was, due, rows, agreed, now, service.orders, service.ledger, shipped, refunded, refundErrors);
      FatesListed(was, service.orders, rows, agreed, now, shipped, refunded, refundErrors);
    }
  }

  /** On a waiting order the refund voids the held credit if it goes through, and touches
      nothing if it does not. */
  lemma RefundFx(o: Order, agrees: bool)
    requires Waiting(o)
    ensures var r := CancelAndRefund(o, agrees, VendorNoShow);
            && Act(o, NoShowRefund(agrees), 0, false) == r
            && (forall now, held :: Act(o, NoShowRefund(agrees), now, held) == r)
            && (if r.reply.Ok? then r.fx.VoidHeld? else r.fx.Keep? && r.order == o)
  {
  }

  /** Every order checked in at the hub ships, in any state the tables allow. */
  lemma AtHubShips(o: Order, agrees: bool)
    requires OrderShape(o) && o.status.AtHub?
    ensures FateOf(o, agrees).Ships? && Dispatched(o, agrees, 0).status.Shipped?
  {
  }

  /** A second dispatch right after the first ships nothing, and touches only what the first
      failed to refund. */
  lemma DispatchAgain(before: map<OrderId, Order>, after: map<OrderId, Order>, rows: seq<OrderId>,
                      agreed: set<OrderId>, now: int, later: set<OrderId>, id: OrderId)
    requires AllDispatched(before, after, rows, agreed, now)
    ensures id !in Pick(after, rows, later, Ships)
    ensures id in Pick(after, rows, later, Refunds) || id in Pick(after, rows, later, Fails)
            <==> id in Pick(before, rows, agreed, Fails)
  {
    hide FateOf, Dispatched, Pick;
    if id in before { SecondFate(before[id], id in agreed, now, id in later); }
    PickMembers(after, rows, later, Ships, id);
    PickMembers(after, rows, later, Refunds, id);
    PickMembers(after, rows, later, Fails, id);
    PickMembers(before, rows, agreed, Fails, id);
  }
}
