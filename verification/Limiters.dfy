/** Two rate limiters, one specification: at most three accepted attempts in every 24-hour
    half-open window. */
module Limiters {
  import opened Base
  import opened Negotiation
  import opened Market
  import opened Tables
  import opened Deals

  const MAX_PER_DAY := 3

  // ---------- The KYC counter ----------

  datatype Tally = Tally(attempts: int, last: Option<int>)

  /** The counter after an attempt, and whether it was let through. */
  function Attempt(c: Tally, now: int): (Tally, bool) {
    if c.attempts >= MAX_PER_DAY && c.last.Some? && c.last.value > now - DAY then (c, false)
    else (Tally((if c.attempts >= MAX_PER_DAY then 0 else c.attempts) + 1, Some(now)), true)
  }

  /** The counter, and when each accepted attempt was made. */
  datatype Kyc = Kyc(counter: Tally, accepted: seq<int>)

  function Submit(k: Kyc, now: int): Kyc {
    var (c, ok) := Attempt(k.counter, now);
    Kyc(c, if ok then k.accepted + [now] else k.accepted)
  }

  function SubmitAll(k: Kyc, times: seq<int>): Kyc
    decreases |times|
  {
    if times == [] then k else SubmitAll(Submit(k, times[0]), times[1..])
  }

  ghost predicate Ordered(times: seq<int>) {
    forall i, j :: 0 <= i < j < |times| ==> times[i] <= times[j]
  }

  /** Accepted attempts in the window [from, from + DAY). */
  function CountIn(times: seq<int>, from: int): int {
    if times == [] then 0
    else CountIn(times[..|times| - 1], from) + (if from <= times[|times| - 1] < from + DAY then 1 else 0)
  }

  /** Attempts four apart are a day apart. */
  ghost predicate Spaced(times: seq<int>) {
    forall i :: 0 <= i && i + MAX_PER_DAY < |times| ==> times[i] + DAY <= times[i + MAX_PER_DAY]
  }

  lemma {:induction false} CountNonNegative(times: seq<int>, from: int)
    ensures 0 <= CountIn(times, from) <= |times|
    decreases |times|
  {
    if times != [] { CountNonNegative(times[..|times| - 1], from); }
  }

  /** Nothing before the last element can be in the window once an element is a day older. */
  lemma {:induction false} CountOld(times: seq<int>, from: int)
    requires forall i :: 0 <= i < |times| ==> times[i] < from
    ensures CountIn(times, from) == 0
    decreases |times|
  {
    if times != [] { CountOld(times[..|times| - 1], from); }
  }

  lemma {:induction false} CountSplit(xs: seq<int>, ys: seq<int>, from: int)
    ensures CountIn(xs + ys, from) == CountIn(xs, from) + CountIn(ys, from)
    decreases |ys|
  {
    if ys == [] {
      assert xs + ys == xs;
    } else {
      assert (xs + ys)[..|xs + ys| - 1] == xs + ys[..|ys| - 1];
      CountSplit(xs, ys[..|ys| - 1], from);
    }
  }

  lemma LastInWindow(times: seq<int>, from: int)
    requires Ordered(times) && Spaced(times) && |times| > MAX_PER_DAY
    requires from <= times[|times| - 1] < from + DAY
    ensures CountIn(times, from) <= MAX_PER_DAY
  {
    var n, cut := |times| - 1, |times| - MAX_PER_DAY;
    var head, tail := times[..cut], times[cut..];
    assert times == head + tail;
    CountSplit(head, tail, from);
    hide CountIn;
    assert times[cut - 1] + DAY <= times[n];
    forall i | 0 <= i < cut ensures head[i] < from {
      assert times[i] <= times[cut - 1];
    }
    hide Ordered, Spaced;
    CountOld(head, from);
    CountNonNegative(tail, from);
  }

  lemma LastOutside(times: seq<int>, from: int)
    requires times != [] && !(from <= times[|times| - 1] < from + DAY)
    ensures CountIn(times, from) == CountIn(times[..|times| - 1], from)
  {
  }

  /** Spacing is enough: no window holds more than three. */
  lemma {:induction false} SpacedIsLimited(times: seq<int>, from: int)
    requires Ordered(times) && Spaced(times)
    ensures CountIn(times, from) <= MAX_PER_DAY
    decreases |times|
  {
    hide CountIn;
    if |times| <= MAX_PER_DAY {
      CountNonNegative(times, from);
    } else if from <= times[|times| - 1] < from + DAY {
      LastInWindow(times, from);
    } else {
      LastOutside(times, from);
      SpacedIsLimited(times[..|times| - 1], from);
    }
  }

  /** The counter counts the attempts since the last reset, and a reset follows a full day
      without an accepted attempt. */
  ghost predicate Tallied(k: Kyc) {
    var n := |k.accepted|;
    var c := k.counter.attempts;
    && Ordered(k.accepted) && Spaced(k.accepted)
    && 0 <= c <= MAX_PER_DAY && c <= n && (c == 0 ==> n == 0)
    && (if n == 0 then k.counter.last.None? else k.counter.last == Some(k.accepted[n - 1]))
    && (0 < c < n ==> k.accepted[n - c - 1] + DAY <= k.accepted[n - c])
  }

  lemma ExtendSpaced(times: seq<int>, now: int)
    requires Ordered(times) && Spaced(times)
    requires times != [] ==> times[|times| - 1] <= now
    requires |times| >= MAX_PER_DAY ==> times[|times| - MAX_PER_DAY] + DAY <= now
    ensures Ordered(times + [now]) && Spaced(times + [now])
  {
    var after := times + [now];
    forall i, j | 0 <= i < j < |after| ensures after[i] <= after[j] {
      if j == |times| { assert times[i] <= times[|times| - 1]; }
    }
  }

  lemma SubmitTallied(k: Kyc, now: int)
    requires Tallied(k) && (k.accepted != [] ==> k.accepted[|k.accepted| - 1] <= now)
    ensures Tallied(Submit(k, now))
  {
    var n := |k.accepted|;
    var c := k.counter.attempts;
    if Attempt(k.counter, now).1 {
      if n >= MAX_PER_DAY {
        assert n - MAX_PER_DAY <= (if c < MAX_PER_DAY then n - c - 1 else n - 1);
        hide Spaced;
        if c < MAX_PER_DAY {
          assert k.accepted[n - MAX_PER_DAY] <= k.accepted[n - c - 1];
          assert k.accepted[n - c] <= k.accepted[n - 1];
        } else {
          assert k.accepted[n - MAX_PER_DAY] <= k.accepted[n - 1];
        }
      }
      ExtendSpaced(k.accepted, now);
      hide Spaced, Ordered;
    }
  }

  lemma {:induction false} KycRun(k: Kyc, times: seq<int>)
    requires Tallied(k) && Ordered(times)
    requires times != [] && k.accepted != [] ==> k.accepted[|k.accepted| - 1] <= times[0]
    ensures Tallied(SubmitAll(k, times))
    decreases |times|
  {
    if times != [] {
      SubmitTallied(k, times[0]);
      KycRun(Submit(k, times[0]), times[1..]);
    }
  }

  /** Whenever attempts are made, at most three are let through in any 24 hours. */
  lemma KycLimit(times: seq<int>, from: int)
    requires Ordered(times)
    ensures CountIn(SubmitAll(Kyc(Tally(0, None), []), times).accepted, from) <= MAX_PER_DAY
  {
    var k := Kyc(Tally(0, None), []);
    KycRun(k, times);
    SpacedIsLimited(SubmitAll(k, times).accepted, from);
  }

  /** No one is locked out for longer than a day: whatever attempts and refusals came before, an
      attempt made 24 hours after the last accepted one is let through. */
  lemma KycNeverLocksOut(times: seq<int>, now: int)
    requires Ordered(times)
    requires var accepted := SubmitAll(Kyc(Tally(0, None), []), times).accepted;
             accepted != [] ==> accepted[|accepted| - 1] + DAY <= now
    ensures Attempt(SubmitAll(Kyc(Tally(0, None), []), times).counter, now).1
  {
    var k := Kyc(Tally(0, None), []);
    KycRun(k, times);
    hide SubmitAll, Spaced, Ordered;
  }

  /** The counter against the rolling window it stands for. They give the same answer in every
      state and at every moment except one kind: three are counted, the last of them was made in
      the last 24 hours and the third last was not. There the window has room and the counter,
      which does not fall as attempts age, refuses. */
  lemma KycAgainstWindow(k: Kyc, now: int)
    requires Tallied(k) && (k.accepted != [] ==> k.accepted[|k.accepted| - 1] <= now)
    ensures k.counter.attempts == MAX_PER_DAY ==> |k.accepted| >= MAX_PER_DAY
    ensures Attempt(k.counter, now).1 == (CountIn(k.accepted, now - DAY + 1) < MAX_PER_DAY)
       <==> !(&& k.counter.attempts == MAX_PER_DAY
              && now - DAY < k.accepted[|k.accepted| - 1]
              && k.accepted[|k.accepted| - MAX_PER_DAY] <= now - DAY)
  {
    var n := |k.accepted|;
    if Attempt(k.counter, now).1 {
      SubmitTallied(k, now);
      hide Tallied;
      RoomForOne(k.accepted, now);
    } else {
      hide CountIn;
      SpacedIsLimited(k.accepted, now - DAY + 1);
      OnlyLastThree(k.accepted, now);
    }
  }

  /** If one more attempt keeps every window within three, the last day holds fewer. */
  lemma RoomForOne(times: seq<int>, now: int)
    requires Ordered(times + [now]) && Spaced(times + [now])
    ensures CountIn(times, now - DAY + 1) < MAX_PER_DAY
  {
    SpacedIsLimited(times + [now], now - DAY + 1);
    assert (times + [now])[..|times|] == times;
  }

  lemma OnlyLastThree(times: seq<int>, now: int)
    requires Ordered(times) && Spaced(times) && |times| >= MAX_PER_DAY && times[|times| - 1] <= now
    ensures CountIn(times, now - DAY + 1) == MAX_PER_DAY <==> times[|times| - MAX_PER_DAY] > now - DAY
  {
    var n := |times|;
    var from := now - DAY + 1;
    var head, tail := times[..n - MAX_PER_DAY], times[n - MAX_PER_DAY..];
    assert times == head + tail;
    CountSplit(head, tail, from);
    hide CountIn;
    forall i | 0 <= i < |head| ensures head[i] < from {
      assert times[i] + DAY <= times[i + MAX_PER_DAY] <= times[n - 1];
    }
    CountOld(head, from);
    assert Ordered(tail);
    hide Ordered, Spaced;
    CountThree(tail, from);
  }

  lemma CountThree(times: seq<int>, from: int)
    requires |times| == 3 && Ordered(times) && times[2] < from + DAY
    ensures CountIn(times, from) == 3 <==> times[0] >= from
  {
    var two, one := times[..2], times[..1];
    assert two[..1] == one;
    assert CountIn(times, from) == CountIn(two, from) + (if from <= times[2] < from + DAY then 1 else 0);
    assert CountIn(two, from) == CountIn(one, from) + (if from <= times[1] < from + DAY then 1 else 0);
    CountNonNegative(one, from);
  }

  /** A vendor whose attempts are ten days apart is refused a fourth an hour after the third. */
  lemma KycRefusesEarly()
    ensures var k := SubmitAll(Kyc(Tally(0, None), []), [0, 10 * DAY, 20 * DAY]);
            !Attempt(k.counter, 20 * DAY + 3600).1 && CountIn(k.accepted, 19 * DAY + 3601) == 1
  {
    var k0 := Kyc(Tally(0, None), []);
    var k1 := Submit(k0, 0);
    var k2 := Submit(k1, 10 * DAY);
    var k3 := Submit(k2, 20 * DAY);
    var times := [0, 10 * DAY, 20 * DAY];
    assert times[1..] == [10 * DAY, 20 * DAY] && times[1..][1..] == [20 * DAY] && times[1..][1..][1..] == [];
    assert SubmitAll(k0, times) == SubmitAll(k1, times[1..]) == SubmitAll(k2, times[1..][1..]) == SubmitAll(k3, []);
    assert k3.accepted == times;
    CountSplit(times[..2], [20 * DAY], 19 * DAY + 3601);
    assert times[..2] + [20 * DAY] == times;
    CountOld(times[..2], 19 * DAY + 3601);
    assert [20 * DAY][..0] == [];
  }

  class VendorProfile {
    var kycAttempts: int
    var kycLastAttemptAt: Option<int>

    /** The limiter at the head of SubmitVendorKYC, statement by statement. */
    method RecordAttempt(now: int) returns (allowed: bool)
      modifies this
      ensures (Tally(kycAttempts, kycLastAttemptAt), allowed) == Attempt(old(Tally(kycAttempts, kycLastAttemptAt)), now)
      ensures !allowed <==> old(kycAttempts) >= 3 && old(kycLastAttemptAt).Some?
                            && old(kycLastAttemptAt).value > now - 24 * 3600
      ensures allowed ==> kycAttempts == (if old(kycAttempts) >= 3 then 1 else old(kycAttempts) + 1)
                          && kycLastAttemptAt == Some(now)
      ensures !allowed ==> kycAttempts == old(kycAttempts) && kycLastAttemptAt == old(kycLastAttemptAt)
    {
      if kycAttempts >= MAX_PER_DAY {
        var cutoff := now - DAY;
        if kycLastAttemptAt.Some? && kycLastAttemptAt.value > cutoff { return false; }
        kycAttempts := 0;
      }
      kycAttempts := kycAttempts + 1;
      kycLastAttemptAt := Some(now);
      allowed := true;
    }
  }

  // ---------- Offers per buyer and product ----------

  /** A buyer's offers on a product opened in the window [from, from + DAY). */
  ghost function OpenedIn(offers: map<OfferId, Offer>, product: ProductId, email: Email, from: int): set<OfferId> {
    set f | f in offers && SameHaggle(offers[f], product, email) && from <= offers[f].created < from + DAY
  }

  ghost predicate Limited(s: State) {
    && (forall f :: f in s.offers ==> s.offers[f].created <= s.now)
    && (forall product, email, from :: |OpenedIn(s.offers, product, email, from)| <= MAX_PER_DAY)
  }

  lemma SameOffers(s: State, t: State)
    requires Limited(s) && s.now <= t.now
    requires OffersFollow(s.offers, t.offers) && t.offers.Keys == s.offers.Keys
    ensures Limited(t)
  {
    forall f | f in t.offers
      ensures t.offers[f].created == s.offers[f].created && t.offers[f].product == s.offers[f].product
      ensures t.offers[f].email == s.offers[f].email
    {
      assert Follows(s.offers[f], t.offers[f]);
    }
    hide Follows;
    forall product, email, from ensures |OpenedIn(t.offers, product, email, from)| <= MAX_PER_DAY {
      forall f
        ensures f in OpenedIn(t.offers, product, email, from) <==> f in OpenedIn(s.offers, product, email, from)
      {
        assert f in t.offers <==> f in s.offers;
      }
      assert OpenedIn(t.offers, product, email, from) == OpenedIn(s.offers, product, email, from);
    }
  }

  lemma OneMore(offers: map<OfferId, Offer>, id: OfferId, row: Offer, product: ProductId, email: Email, from: int)
    requires id !in offers && forall f :: f in offers ==> offers[f].created <= row.created
    requires |RecentOffers(offers, row.product, row.email, row.created)| < MAX_PER_DAY
    requires |OpenedIn(offers, product, email, from)| <= MAX_PER_DAY
    ensures |OpenedIn(offers[id := row], product, email, from)| <= MAX_PER_DAY
  {
    var was := OpenedIn(offers, product, email, from);
    var grown := OpenedIn(offers[id := row], product, email, from);
    if SameHaggle(row, product, email) && from <= row.created < from + DAY {
      var recent := RecentOffers(offers, row.product, row.email, row.created);
      forall f | f in was ensures f in recent {
        assert offers[f].created >= from > row.created - DAY;
      }
      SubsetSize(was, recent);
      assert grown == was + {id};
    } else {
      assert grown == was;
    }
  }

  lemma CreateLimited(s: State, id: OfferId, product: ProductId, email: Email, amount: int, quantity: int)
    requires Limited(s)
    ensures Limited(CreateOfferStep(s, id, product, email, amount, quantity).state)
  {
    var t := CreateOfferStep(s, id, product, email, amount, quantity).state;
    if t.offers != s.offers {
      var row := t.offers[id];
      assert t.offers == s.offers[id := row];
      assert row.created == s.now && row.product == product && row.email == email;
      hide CreateOfferStep, Screen, Opening, RecentOffers, OpenedIn, OpenExists;
      forall p, e, from ensures |OpenedIn(t.offers, p, e, from)| <= MAX_PER_DAY {
        OneMore(s.offers, id, row, p, e, from);
      }
    }
  }

  lemma SubsetSize(a: set<OfferId>, b: set<OfferId>)
    requires a <= b
    ensures |a| <= |b|
  {
    assert b == a + (b - a);
  }

  lemma StepLimited(s: State, a: Step)
    requires TablesOk(s) && DealsOk(s) && Limited(s)
    ensures Limited(Next(s, a).state)
  {
    if a.CreateOffer? {
      hide Limited, TablesOk, DealsOk, CreateOfferStep;
      CreateLimited(s, a.id, a.product, a.email, a.amount, a.quantity);
    } else {
      hide Limited, TablesOk, DealsOk, Next;
      StepDeals(s, a);
      SameKeys(s, a);
      ClockForward(s, a);
      SameOffers(s, Next(s, a).state);
    }
  }

  lemma SameKeys(s: State, a: Step)
    requires !a.CreateOffer?
    ensures Next(s, a).state.offers.Keys == s.offers.Keys
  {
    hide CreateOfferStep, BeginCheckoutStep, PriceLineStep,
         PlaceOrdersStep, BeginConfirmStep, PayOne, PayAll, AbandonAll, VendorWritesStep, ActOn,
         BeginSweepStep, SweepStep, WithdrawStep, DepositStep, BuyerMove, VendorMove, ExpireRow;
    if a.CommitConfirm? && a.sid in s.sessions && s.sessions[a.sid].Confirming? {
      PayAllKeys(Close(s, a.sid), s.sessions[a.sid].ref, s.sessions[a.sid].rows, s.sessions[a.sid].lone);
    }
  }

  lemma {:induction false} PayAllKeys(s: State, ref: Ref, rows: seq<OrderId>, lone: bool)
    ensures PayAll(s, ref, rows, lone).offers.Keys == s.offers.Keys
    decreases |rows|
  {
    if rows != [] { PayAllKeys(PayOne(s, ref, rows[0], lone), ref, rows[1..], lone); }
  }

  lemma {:induction false} RunLimited(s: State, steps: seq<Step>)
    requires TablesOk(s) && DealsOk(s) && Limited(s)
    ensures Limited(Run(s, steps))
    decreases |steps|
  {
    hide Limited, TablesOk, DealsOk, Next;
    if steps != [] {
      StepLimited(s, steps[0]);
      StepOk(s, steps[0]);
      StepDeals(s, steps[0]);
      RunLimited(Next(s, steps[0]).state, steps[1..]);
    }
  }

  /** Whatever a buyer does, at most three of their negotiations on one product open in any
      24 hours: starting over cannot be used to search for the floor. */
  lemma OfferLimit(s: State, steps: seq<Step>, product: ProductId, email: Email, from: int)
    requires Unused(s)
    ensures |OpenedIn(Run(s, steps).offers, product, email, from)| <= MAX_PER_DAY
  {
    forall p, e, at ensures |OpenedIn(s.offers, p, e, at)| <= MAX_PER_DAY {
      assert OpenedIn(s.offers, p, e, at) == {};
    }
    RunLimited(s, steps);
  }
}
