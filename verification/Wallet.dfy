/** A vendor's wallet: how far a balance can fall, and what a release moves. */
module Wallet {
  import opened Base
  import opened Ledger
  import opened Orders
  import opened Market
  import opened Tables

  /** No store owes more than the credits that were clawed back from it after release. */
  ghost predicate Solvent(l: seq<Entry>) {
    forall store :: Total(Balance(store), l) + Total(Clawed(store), l) >= 0
  }

  lemma {:induction false} ClawedNonNegative(l: seq<Entry>, store: StoreId)
    requires OrderRowsSane(l)
    ensures Total(Clawed(store), l) >= 0
  {
    if l != [] {
      assert OrderRowsSane(l[1..]);
      ClawedNonNegative(l[1..], store);
    }
  }

  /** The store's balance and what it has earned rise by these amounts; what it holds, and every
      other store's money, stays. */
  ghost predicate Rises(before: seq<Entry>, after: seq<Entry>, store: StoreId, balance: int, earned: int) {
    forall x ::
      && Total(Balance(x), after) == Total(Balance(x), before) + (if x == store then balance else 0)
      && Total(Earned(x), after) == Total(Earned(x), before) + (if x == store then earned else 0)
      && Total(HeldBy(x), after) == Total(HeldBy(x), before)
  }

  /** A completed row of no order moves one store's balance by its amount. */
  lemma RowAdded(l: seq<Entry>, e: Entry)
    requires e.status.Completed?
    ensures Rises(l, l + [e], e.store, if e.kind == Credit then e.amount else -e.amount,
                  if e.kind == Credit then e.amount else 0)
  {
    hide Total;
    forall x
      ensures Total(Balance(x), l + [e])
           == Total(Balance(x), l) + (if x != e.store then 0 else if e.kind == Credit then e.amount else -e.amount)
      ensures Total(Earned(x), l + [e])
           == Total(Earned(x), l) + (if x == e.store && e.kind == Credit then e.amount else 0)
      ensures Total(HeldBy(x), l + [e]) == Total(HeldBy(x), l)
    {
      TotalAppend(Balance(x), l, e);
      TotalAppend(Earned(x), l, e);
      TotalAppend(HeldBy(x), l, e);
    }
  }

  lemma ApplySolvent(l: seq<Entry>, id: OrderId, fx: Effect)
    requires OrderRowsSane(l) && Solvent(l)
    ensures Solvent(Apply(l, id, fx))
  {
    forall store ensures Total(Balance(store), Apply(l, id, fx)) + Total(Clawed(store), Apply(l, id, fx)) >= 0 {
      ApplyOnWallet(l, id, fx, store);
    }
  }

  lemma AddSolvent(l: seq<Entry>, e: Entry)
    requires OrderRowsSane(l) && Solvent(l)
    requires e.amount > 0 && !(e.status.Failed? && e.released)
    requires e.kind.Debit? && e.status.Completed? ==> e.amount <= Total(Balance(e.store), l)
    ensures Solvent(l + [e])
  {
    forall store ensures Total(Balance(store), l + [e]) + Total(Clawed(store), l + [e]) >= 0 {
      TotalAppend(Balance(store), l, e);
      TotalAppend(Clawed(store), l, e);
      ClawedNonNegative(l, store);
      assert Total(Balance(store), l) + Total(Clawed(store), l) >= 0;
    }
  }

  lemma PayOneSolvent(s: State, ref: Ref, id: OrderId, lone: bool)
    requires RowsOk(s.orders, s.index, s.ledger) && Solvent(s.ledger)
    ensures Solvent(PayOne(s, ref, id, lone).ledger)
  {
    hide Indexed, Solvent, RedeemAll;
    if AwaitsPayment(s.orders, id) {
      assert OrderShape(s.orders[id]);
      AddSolvent(s.ledger, CreditRow(s.orders[id], id, ref, lone));
    }
  }

  lemma {:induction false} PayAllSolvent(s: State, ref: Ref, rows: seq<OrderId>, lone: bool)
    requires RowsOk(s.orders, s.index, s.ledger) && Solvent(s.ledger)
    requires forall i :: 0 <= i < |rows| ==> rows[i] in s.orders && s.orders[rows[i]].ref == ref
    ensures Solvent(PayAll(s, ref, rows, lone).ledger)
    decreases |rows|
  {
    hide Solvent, RowsOk, PayOne;
    if rows != [] {
      PayOneSolvent(s, ref, rows[0], lone);
      PayOneOk(s, ref, rows[0], lone);
      PayAllSolvent(PayOne(s, ref, rows[0], lone), ref, rows[1..], lone);
    }
  }

  lemma CommitSolvent(s: State, sid: SessionId)
    requires TablesOk(s) && Solvent(s.ledger)
    ensures Solvent(CommitConfirmStep(s, sid).state.ledger)
  {
    hide Solvent, RowsOk, PayAll;
    if sid in s.sessions && s.sessions[sid].Confirming? {
      PayAllSolvent(Close(s, sid), s.sessions[sid].ref, s.sessions[sid].rows, s.sessions[sid].lone);
    }
  }

  lemma ActSolvent(s: State, id: OrderId, m: Move)
    requires TablesOk(s) && Solvent(s.ledger)
    ensures Solvent(ActOn(s, id, m).state.ledger)
  {
    hide Solvent, Act, Indexed, OrdersShape;
    if id in s.orders { ApplySolvent(s.ledger, id, Act(s.orders[id], m, s.now, HasHeld(s.ledger, id)).fx); }
  }

  lemma SweepSolvent(s: State, sid: SessionId)
    requires TablesOk(s) && Solvent(s.ledger)
    ensures Solvent(SweepStep(s, sid).state.ledger)
  {
    hide Solvent, ActOn, TablesOk;
    if sid in s.sessions && s.sessions[sid].Sweeping? && s.sessions[sid].pos < |s.sessions[sid].rows| {
      ActSolvent(s, s.sessions[sid].rows[s.sessions[sid].pos], SweepMark);
      ActSolvent(s, s.sessions[sid].rows[s.sessions[sid].pos], SweepRelease);
    }
  }

  lemma VendorSolvent(s: State, id: OrderId, store: StoreId, status: OrderStatus)
    requires TablesOk(s) && Solvent(s.ledger)
    ensures Solvent(VendorWritesStep(s, id, store, status).state.ledger)
  {
    hide Solvent, ActOn, TablesOk;
    if id in s.orders { ActSolvent(s, id, VendorSets(store, status, FulfilmentOf(s.orders, id))); }
  }

  lemma MoneySolvent(s: State, a: Step)
    requires TablesOk(s) && Solvent(s.ledger) && (a.PayOut? || a.Deposit?)
    ensures Solvent(Next(s, a).state.ledger)
  {
    hide Solvent, Indexed, OrdersShape;
    match a
    case PayOut(store, amount, token) =>
      if amount >= 100 && amount <= Total(Balance(store), s.ledger) {
        AddSolvent(s.ledger, Entry(store, Debit, amount, "WD_" + token, None, Completed, false));
      }
    case Deposit(store, amount, reference) =>
      if amount > 0 { AddSolvent(s.ledger, Entry(store, Credit, amount, reference, None, Completed, false)); }
  }

  lemma StepSolvent(s: State, a: Step)
    requires TablesOk(s) && Solvent(s.ledger)
    ensures Solvent(Next(s, a).state.ledger)
  {
    hide Solvent, TablesOk, CreateOfferStep, BuyerMoveStep, VendorMoveStep, ExpireAll, BeginCheckoutStep, PriceLineStep,
         PlaceOrdersStep, BeginConfirmStep, CommitConfirmStep, AbandonAll, VendorWritesStep, ActOn,
         BeginSweepStep, SweepStep, WithdrawStep, DepositStep;
    match a
    case CommitConfirm(sid) => CommitSolvent(s, sid);
    case VendorWrites(id, store, status) => VendorSolvent(s, id, store, status);
    case OnOrder(id, m) => ActSolvent(s, id, m);
    case Sweep(sid) => SweepSolvent(s, sid);
    case PayOut(_, _, _) => MoneySolvent(s, a);
    case Deposit(_, _, _) => MoneySolvent(s, a);
    case _ =>
  }

  /** The wallet bound. In every run from an unused marketplace a store's balance never
      falls below minus what was clawed back from it after release: withdrawals alone cannot
      overdraw it, and a dispute refund can, by exactly the credit it takes back. */
  lemma WalletBound(s: State, steps: seq<Step>, store: StoreId)
    requires Unused(s)
    ensures var l := Run(s, steps).ledger;
            Total(Balance(store), l) >= -Total(Clawed(store), l) && Total(Clawed(store), l) >= 0
  {
    RunSolvent(s, steps);
    RunOk(s, steps);
    ClawedNonNegative(Run(s, steps).ledger, store);
  }

  lemma {:induction false} RunSolvent(s: State, steps: seq<Step>)
    requires TablesOk(s) && Solvent(s.ledger)
    ensures Solvent(Run(s, steps).ledger)
    decreases |steps|
  {
    hide Solvent, TablesOk, Next;
    if steps != [] {
      StepSolvent(s, steps[0]);
      StepOk(s, steps[0]);
      RunSolvent(Next(s, steps[0]).state, steps[1..]);
    }
  }

  /** Confirming delivery pays out of what was held: held plus earned does not change, and
      the balance rises by exactly what stops being held. */
  lemma ReleaseMovesHeldToEarned(s: State, id: OrderId, email: Email, store: StoreId)
    requires TablesOk(s)
    ensures var l := s.ledger;
            var k := ActOn(s, id, ConfirmDelivery(email)).state.ledger;
            && Total(HeldBy(store), k) + Total(Earned(store), k) == Total(HeldBy(store), l) + Total(Earned(store), l)
            && Total(Balance(store), k) - Total(Balance(store), l) == Total(HeldBy(store), l) - Total(HeldBy(store), k)
  {
    hide Total, Credits, Indexed, OrdersShape;
    ConfirmationDoes(s, id, email);
    RowsSane(s.orders, s.index, s.ledger);
    hide ActOn;
    ApplyOnWallet(s.ledger, id, Release, store);
  }

  lemma ConfirmationDoes(s: State, id: OrderId, email: Email)
    ensures var k := ActOn(s, id, ConfirmDelivery(email)).state.ledger;
            k == s.ledger || k == Apply(s.ledger, id, Release)
  {
    hide Apply;
    KeepChangesNothing(s.ledger, id);
  }
}
