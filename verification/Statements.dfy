/** A vendor's wallet adds up: balance, earnings and held money, from the orders' credits, the
    deposits and the withdrawals of the whole run. */
module Statements {
  import opened Base
  import opened Ledger
  import opened Orders
  import opened Market
  import opened Tables
  import opened Payments

  /** What a store's order credits with this status come to. */
  function OrderMoney(l: seq<Entry>, store: StoreId, status: WalletStatus): int {
    if l == [] then 0
    else
      var e := l[|l| - 1];
      OrderMoney(l[..|l| - 1], store, status)
      + (if e.order.Some? && e.store == store && e.status == status then e.amount else 0)
  }

  /** What a store's rows that belong to no order come to, money in or money out. */
  function OwnMoney(l: seq<Entry>, store: StoreId, kind: Kind): int {
    if l == [] then 0
    else
      var e := l[|l| - 1];
      OwnMoney(l[..|l| - 1], store, kind)
      + (if e.order.None? && e.store == store && e.kind == kind then e.amount else 0)
  }

  /** What a step adds to the store by bank transfer: nothing if its reference is on record. */
  ghost function DepositedBy(s: State, a: Step, store: StoreId): int {
    match a
    case Deposit(to, amount, reference) =>
      if to == store && reference != "" && amount > 0 && !Recorded(s.ledger, reference) then amount else 0
    case _ => 0
  }

  /** What a step pays out to the store: nothing unless its balance covers it. */
  ghost function WithdrawnBy(s: State, a: Step, store: StoreId): int {
    match a
    case PayOut(from, amount, token) =>
      if from == store && 100 <= amount <= Total(Balance(store), s.ledger) && !Recorded(s.ledger, "WD_" + token)
      then amount else 0
    case _ => 0
  }

  /** Bank transfers to the store over a run, each reference once. */
  ghost function Deposited(s: State, steps: seq<Step>, store: StoreId): int
    decreases |steps|
  {
    if steps == [] then 0
    else DepositedBy(s, steps[0], store) + Deposited(Next(s, steps[0]).state, steps[1..], store)
  }

  /** The store's withdrawals over a run. */
  ghost function Withdrawn(s: State, steps: seq<Step>, store: StoreId): int
    decreases |steps|
  {
    if steps == [] then 0
    else WithdrawnBy(s, steps[0], store) + Withdrawn(Next(s, steps[0]).state, steps[1..], store)
  }

  // ---------- The rows of no order ----------

  function Own(l: seq<Entry>): seq<Entry> {
    if l == [] then [] else Own(l[..|l| - 1]) + (if l[|l| - 1].order.None? then [l[|l| - 1]] else [])
  }

  lemma OwnAppend(l: seq<Entry>, e: Entry)
    ensures Own(l + [e]) == Own(l) + (if e.order.None? then [e] else [])
  {
    assert (l + [e])[..|l|] == l;
  }

  lemma MoneyAppend(l: seq<Entry>, e: Entry, store: StoreId, kind: Kind)
    ensures OwnMoney(l + [e], store, kind)
         == OwnMoney(l, store, kind) + (if e.order.None? && e.store == store && e.kind == kind then e.amount else 0)
  {
    assert (l + [e])[..|l|] == l;
  }

  lemma {:induction false} MoneyIsOwn(l: seq<Entry>, store: StoreId, kind: Kind)
    ensures OwnMoney(Own(l), store, kind) == OwnMoney(l, store, kind)
    decreases |l|
  {
    if l != [] {
      var front, e := l[..|l| - 1], l[|l| - 1];
      assert l == front + [e] && Own(front) + [] == Own(front);
      MoneyIsOwn(front, store, kind);
      OwnAppend(front, e);
      MoneyAppend(front, e, store, kind);
      MoneyAppend(Own(front), e, store, kind);
      hide OwnMoney, Own;
    }
  }

  lemma {:induction false} OwnAlike(k: seq<Entry>, l: seq<Entry>)
    requires |k| == |l| && forall i :: 0 <= i < |l| ==> k[i] == l[i] || (k[i].order.Some? && l[i].order.Some?)
    ensures Own(k) == Own(l)
    decreases |l|
  {
    if l != [] { OwnAlike(k[..|l| - 1], l[..|l| - 1]); }
  }

  lemma {:induction false} OwnGrows(k: seq<Entry>, l: seq<Entry>)
    requires k <= l && forall i :: |k| <= i < |l| ==> l[i].order.Some?
    ensures Own(l) == Own(k)
    decreases |l|
  {
    if |k| < |l| {
      OwnGrows(k, l[..|l| - 1]);
    } else {
      assert k == l;
    }
  }

  lemma ActOwn(s: State, id: OrderId, m: Move)
    ensures Own(ActOn(s, id, m).state.ledger) == Own(s.ledger)
  {
    hide Act, HasHeld, Own, Apply;
    OwnAlike(ActOn(s, id, m).state.ledger, s.ledger);
  }

  lemma SweepOwn(s: State, sid: SessionId)
    ensures Own(SweepStep(s, sid).state.ledger) == Own(s.ledger)
  {
    hide ActOn, Own;
    if sid in s.sessions && s.sessions[sid].Sweeping? && s.sessions[sid].pos < |s.sessions[sid].rows| {
      ActOwn(s, s.sessions[sid].rows[s.sessions[sid].pos], SweepMark);
      ActOwn(s, s.sessions[sid].rows[s.sessions[sid].pos], SweepRelease);
    }
  }

  lemma CommitOwn(s: State, sid: SessionId)
    ensures Own(CommitConfirmStep(s, sid).state.ledger) == Own(s.ledger)
  {
    hide Own;
    if sid in s.sessions && s.sessions[sid].Confirming? {
      var c := s.sessions[sid];
      PayAllWrites(Close(s, sid), c.ref, c.rows, c.lone);
      var l := CommitConfirmStep(s, sid).state.ledger;
      hide PayAll, AllConfirmed, AllRedeemed;
      forall i | |s.ledger| <= i < |l| ensures l[i].order.Some? {
        assert CreditAmong(s.orders, c.rows, l[i], c.ref, c.lone);
      }
      OwnGrows(s.ledger, l);
    }
  }

  lemma OrderStepOwn(s: State, a: Step)
    requires a.VendorWrites? || a.OnOrder? || a.Sweep?
    ensures Own(Next(s, a).state.ledger) == Own(s.ledger)
  {
    hide Next, Own, ActOn, SweepStep;
    OrderStepIs(s, a);
    match a
    case VendorWrites(id, store, status) =>
      if id in s.orders { ActOwn(s, id, VendorSets(store, status, FulfilmentOf(s.orders, id))); }
    case OnOrder(id, m) => ActOwn(s, id, m);
    case Sweep(sid) => SweepOwn(s, sid);
  }

  lemma OtherOwn(s: State, a: Step)
    requires !a.PayOut? && !a.Deposit?
    ensures Own(Next(s, a).state.ledger) == Own(s.ledger)
  {
    hide Own;
    if a.VendorWrites? || a.OnOrder? || a.Sweep? {
      OrderStepOwn(s, a);
    } else if a.CommitConfirm? {
      CheckoutStepIs(s, a);
      CommitOwn(s, a.sid);
      hide Next, CommitConfirmStep;
    } else if a.PlaceOrders? || a.MarkAbandoned? {
      CheckoutStepIs(s, a);
      hide Next;
    } else {
      IsElsewhere(a);
      QuietRows(s, a);
      hide Next;
    }
  }

  // ---------- Deposits and withdrawals ----------

  lemma DepositIs(s: State, to: StoreId, amount: int, reference: string)
    ensures DepositStep(s, to, amount, reference).state.ledger
         == if reference != "" && amount > 0 && !Recorded(s.ledger, reference)
            then s.ledger + [Entry(to, Credit, amount, reference, None, Completed, false)] else s.ledger
  {
  }

  lemma PayOutIs(s: State, from: StoreId, amount: int, token: string)
    ensures WithdrawStep(s, from, amount, token).state.ledger
         == if 100 <= amount <= Total(Balance(from), s.ledger) && !Recorded(s.ledger, "WD_" + token)
            then s.ledger + [Entry(from, Debit, amount, "WD_" + token, None, Completed, false)] else s.ledger
  {
    assert Taken(s.ledger, "WD_" + token) <==> Recorded(s.ledger, "WD_" + token);
    hide Total;
  }

  lemma MoneyIs(s: State, a: Step)
    requires a.PayOut? || a.Deposit?
    ensures Next(s, a).state.ledger ==
            match a {
              case PayOut(store, amount, token) => WithdrawStep(s, store, amount, token).state.ledger
              case Deposit(store, amount, reference) => DepositStep(s, store, amount, reference).state.ledger
            }
  {
    hide WithdrawStep, DepositStep;
  }

  lemma DepositMoney(s: State, to: StoreId, amount: int, reference: string, store: StoreId, kind: Kind)
    ensures OwnMoney(DepositStep(s, to, amount, reference).state.ledger, store, kind)
         == OwnMoney(s.ledger, store, kind)
            + (if kind == Credit then DepositedBy(s, Deposit(to, amount, reference), store) else 0)
  {
    DepositIs(s, to, amount, reference);
    MoneyAppend(s.ledger, Entry(to, Credit, amount, reference, None, Completed, false), store, kind);
    hide DepositStep, OwnMoney, Recorded;
  }

  lemma PayOutMoney(s: State, from: StoreId, amount: int, token: string, store: StoreId, kind: Kind)
    ensures OwnMoney(WithdrawStep(s, from, amount, token).state.ledger, store, kind)
         == OwnMoney(s.ledger, store, kind)
            + (if kind == Debit then WithdrawnBy(s, PayOut(from, amount, token), store) else 0)
  {
    PayOutIs(s, from, amount, token);
    MoneyAppend(s.ledger, Entry(from, Debit, amount, "WD_" + token, None, Completed, false), store, kind);
    hide WithdrawStep, OwnMoney, Recorded, Total;
  }

  lemma OtherMoney(s: State, a: Step, store: StoreId, kind: Kind)
    requires !a.PayOut? && !a.Deposit?
    ensures OwnMoney(Next(s, a).state.ledger, store, kind) == OwnMoney(s.ledger, store, kind)
    ensures DepositedBy(s, a, store) == 0 && WithdrawnBy(s, a, store) == 0
  {
    hide Next, Own, OwnMoney, Total, Recorded;
    OtherOwn(s, a);
    MoneyIsOwn(s.ledger, store, kind);
    MoneyIsOwn(Next(s, a).state.ledger, store, kind);
  }

  lemma MoneyOnly(s: State, a: Step, store: StoreId)
    ensures a.Deposit? ==> WithdrawnBy(s, a, store) == 0
    ensures a.PayOut? ==> DepositedBy(s, a, store) == 0
  {
    hide Total, Recorded;
  }

  /** One step's part of the account. */
  lemma StepMoney(s: State, a: Step, store: StoreId, kind: Kind)
    ensures OwnMoney(Next(s, a).state.ledger, store, kind)
         == OwnMoney(s.ledger, store, kind)
            + (if kind == Credit then DepositedBy(s, a, store) else WithdrawnBy(s, a, store))
  {
    hide *;
    MoneyOnly(s, a, store);
    match a
    case Deposit(to, amount, reference) => MoneyIs(s, a); DepositMoney(s, to, amount, reference, store, kind);
    case PayOut(from, amount, token) => MoneyIs(s, a); PayOutMoney(s, from, amount, token, store, kind);
    case _ => OtherMoney(s, a, store, kind);
  }

  lemma {:induction false} RunMoney(s: State, steps: seq<Step>, store: StoreId)
    ensures OwnMoney(Run(s, steps).ledger, store, Credit)
         == OwnMoney(s.ledger, store, Credit) + Deposited(s, steps, store)
    ensures OwnMoney(Run(s, steps).ledger, store, Debit)
         == OwnMoney(s.ledger, store, Debit) + Withdrawn(s, steps, store)
    decreases |steps|
  {
    hide OwnMoney, Next, DepositedBy, WithdrawnBy;
    if steps != [] {
      StepMoney(s, steps[0], store, Credit);
      StepMoney(s, steps[0], store, Debit);
      RunMoney(Next(s, steps[0]).state, steps[1..], store);
    }
  }

  // ---------- The three sums ----------

  lemma {:induction false} SumsSplit(l: seq<Entry>, store: StoreId)
    requires OrderRowsSane(l)
    ensures Total(Balance(store), l)
         == OrderMoney(l, store, Completed) + OwnMoney(l, store, Credit) - OwnMoney(l, store, Debit)
    ensures Total(Earned(store), l) == OrderMoney(l, store, Completed) + OwnMoney(l, store, Credit)
    ensures Total(HeldBy(store), l) == OrderMoney(l, store, Held)
    decreases |l|
  {
    if l != [] {
      var n := |l| - 1;
      SumsSplit(l[..n], store);
      assert l == l[..n] + [l[n]];
      hide Total;
      TotalAppend(Balance(store), l[..n], l[n]);
      TotalAppend(Earned(store), l[..n], l[n]);
      TotalAppend(HeldBy(store), l[..n], l[n]);
    }
  }

  /** Every wallet adds up, in every run from an unused marketplace: the balance is the order credits
      paid out and not taken back, plus the bank transfers, each once, less the withdrawals; earned
      leaves the withdrawals out; held is the order credits still pending. */
  lemma {:induction false} WalletAddsUp(s: State, steps: seq<Step>, store: StoreId)
    requires Unused(s)
    ensures var l := Run(s, steps).ledger;
            && Total(Balance(store), l)
               == OrderMoney(l, store, Completed) + Deposited(s, steps, store) - Withdrawn(s, steps, store)
            && Total(Earned(store), l) == OrderMoney(l, store, Completed) + Deposited(s, steps, store)
            && Total(HeldBy(store), l) == OrderMoney(l, store, Held)
  {
    assert OwnMoney([], store, Credit) == 0 && OwnMoney([], store, Debit) == 0;
    UnusedIs(s);
    hide *;
    var t := Run(s, steps);
    RunOk(s, steps);
    TablesSane(t);
    RunMoney(s, steps, store);
    SumsSplit(t.ledger, store);
  }

  lemma UnusedIs(s: State)
    requires Unused(s)
    ensures s.ledger == [] && TablesOk(s)
  {
  }

  lemma TablesSane(t: State)
    requires TablesOk(t)
    ensures OrderRowsSane(t.ledger)
  {
    RowsSane(t.orders, t.index, t.ledger);
  }

  /** A bank transfer, once: a new reference raises the store's balance and earnings by exactly the
      amount, and a reference on record, an empty one or an empty amount changes nothing. No other
      money moves. */
  lemma DepositCredits(s: State, store: StoreId, amount: int, reference: string, x: StoreId)
    ensures var l := DepositStep(s, store, amount, reference).state.ledger;
            var more := if x == store && reference != "" && amount > 0 && !Recorded(s.ledger, reference) then amount
                        else 0;
            && Total(Balance(x), l) == Total(Balance(x), s.ledger) + more
            && Total(Earned(x), l) == Total(Earned(x), s.ledger) + more
            && Total(HeldBy(x), l) == Total(HeldBy(x), s.ledger)
  {
    var e := Entry(store, Credit, amount, reference, None, Completed, false);
    DepositIs(s, store, amount, reference);
    hide Total, DepositStep, Recorded;
    TotalAppend(Balance(x), s.ledger, e);
    TotalAppend(Earned(x), s.ledger, e);
    TotalAppend(HeldBy(x), s.ledger, e);
  }
}
