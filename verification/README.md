# Haggling, checkout and escrow: a verified model

GoMarketi is a marketplace where buyers haggle over prices, pay for a basket of several vendors
at once, and vendors are paid only when the goods arrive. This project models the money path of
its orders service in Dafny and proves what that path keeps, over every run and every
interleaving. Two smaller protocols beside it are modelled too: refresh-token families, and the
two limiters on repeated attempts.

## How it is modelled

The four tables (orders, order lines, price offers, wallet transactions), the charges Paystack
holds and one clock form a `State`; `Market.Next` takes one `Step`, and `Market.Run` a whole run.
A single SQL statement or transaction is one step. Handlers that read outside their transaction
are sessions of several steps that anything may interleave: pricing a checkout line by line,
`ConfirmPayment` (read and verify, then the transaction), and the auto-release sweep (two
statements an order). The classes `Service.OrdersService`, `Batches.HubDesk`,
`Tokens.AuthService` and `Limiters.VendorProfile` hold the handlers statement by statement, as
they run when nothing interleaves; each method is proved against the state machine or against
what it promises outright, and the theorems are about the machine. When a handler accepts a request
and what it then leaves is declared once more in stored columns and plain amounts, without the
functions that compute it.

| file | contents |
|---|---|
| `Negotiation.dfy`, `Answers.dfy`, `Honoured.dfy` | one price offer, its moves, its conversation; when each move is taken and what it leaves; that a deal can be bought with |
| `Ledger.dfy`, `Orders.dfy` | wallet rows and their updates; one order and its actions |
| `Market.dfy`, `Tables.dfy`, `Frames.dfy` | the state machine; what its tables always satisfy; what most steps leave alone |
| `Deals.dfy`, `SingleUse.dfy`, `Expiry.dfy` | deals across checkout; when a deal is bought with once; independence from the expiry sweep |
| `Confluence.dfy`, `Bystanders.dfy` | racing confirmations; the same with the rest of the marketplace in between |
| `Payments.dfy`, `Charges.dfy`, `Conservation.dfy` | what a confirmed payment writes; the orders a charge covers; where every kobo is |
| `Baskets.dfy`, `Shares.dfy` | basket arithmetic; what each store gets of a checkout |
| `Escrow.dfy`, `Releases.dfy`, `Waiting.dfy`, `SweepRaces.dfy` | credits; why they are released; the buyer's week; the auto-release sweep against everyone else |
| `Wallet.dfy`, `Statements.dfy`, `Disputes.dfy` | balances; how every wallet adds up over a run; refunds and vendor writes |
| `AutoRelease.dfy`, `Terms.dfy`, `Service.dfy`, `Batches.dfy` | the undisturbed sweep; the conditions the handlers act on, in stored columns; the handlers; hub dispatch |
| `Tokens.dfy`, `Limiters.dfy` | refresh tokens; attempt limits |
| `Witnesses.dfy` | short runs in which the code does not do what its comments say |

`Event.floor`, `Order.refunds`, `Order.reasons` and `Kyc.accepted` are history the program does
not store. Amounts are mathematical integers. Emails are canonical, so a case-insensitive
comparison is equality. The half-price test of `CreateOffer` is done over reals; the program does
it in float64, which is exact for every amount below 2^53 kobo. There is one clock for the
database and the process, and it never goes back. Ids and token hashes that the program generates
are new. Statements do not fail. A refund call to Paystack and the commit that records it are one
step, which succeeds or does nothing.

## Where the code and its comments differ

The model follows the code.

- A comment at `orders.go:680-685` says that a vendor's cancellation refunds the buyer and voids
  the credit. It does neither: the status is written first, and `cancelAndRefund` then returns
  early (`orders.go:448`). `Disputes.VendorCancelNeverRefunds` proves this for every order.
- `vendorMaySet` looks only at the requested status (`orders.go:619`). A vendor may therefore
  confirm an unpaid order, after which no payment is recorded for it
  (`Disputes.VendorWriteBlocksPayment`), or reopen a delivered one
  (`Disputes.ReopenedOrderLosesMoney`; `Witnesses.ReopenedAndRefunded` is a run in which a charge of
  1200 is paid out in full and refunded in full). Conservation is proved for actions that are
  `Proper`: only refunds, and writes to orders that await payment, are restricted.
  `Conservation.ProperExactly` proves that, action by action, exactly these keep an order's money
  accounted for; for a no-show refund `Conservation.NoShowRefundBalances` says when it survives.
- Comments at `orders.go:315-321` and `orders.go:540-543` say that an open dispute blocks the
  auto-release. The sweep checks this only when it reads its rows. If the buyer reports the order
  missing between the read and the release, the vendor is paid with the dispute open
  (`Witnesses.SweepPaysInDispute`); `SweepRaces.SweepPaysDisputed` says exactly when.
- The comment at `orders.go:536-539` calls a stale run of the sweep harmless, because both writes are
  conditioned on the current status. The second is conditioned on the credit alone: a vendor who
  cancels in between is paid for an order that was never delivered
  (`Witnesses.SweepPaysCancelled`). `SweepRaces.SweepPaysUndelivered` says exactly when the sweep pays
  an order that is not delivered.
- A comment at `offers.go:105-107` says the outcome never depends on when the expiry sweep last
  ran. That holds of every answer modelled here but one: `CreateOffer`'s conflict check is a unique
  index that does not look at the window. `Expiry.CreateDependsOnSweep` gives the exact condition for
  one call, `Expiry.SweepsInvisible` for a whole run, and `Witnesses.CreateMeetsStale` a run that
  meets it. The index covers open offers only, so an offer accepted on the spot never conflicts.
  Left aside is `updated_at`, which the sweep writes: it is part of every offer the service returns,
  and `ListMyOffers` sorts by it.
- The KYC limiter is described as three attempts in any rolling 24 hours
  (`identity.go:377-381`). It never lets more through, but refuses more than that: the counter does
  not fall as attempts age. `Limiters.KycAgainstWindow` says exactly when the two differ, and
  `Limiters.KycRefusesEarly` is a run in which they do.
- A deal "covers" a quantity (`offers.go:877-880`), and once redeemed it "has already been used".
  Both are checked when a line is priced, which is before the order is placed, and neither looks at
  other unpaid orders. Two checkouts that price a deal before either is paid are both placed and
  both paid at the agreed price (`Witnesses.DealUsedTwice`, where the second is placed when no
  unpaid order names the deal any more). `SingleUse.DealUsedOnce` says what has to hold when an
  order is placed for the quantity to be a bound over all orders.
- "A confirmation that runs twice credits once" (`orders.go:913-914`) rests on the credit's
  reference being free. `Escrow.CreditDroppedWhenTaken` says exactly when a paid order gets no
  credit at all, and `Witnesses.SharedPrefix` is a run with two order ids that agree in their first
  eight characters.
- `ConfirmPayment`'s test for a lone order and the derived fulfilment column are called the same
  rule (`orders.go:1286-1288`). They disagree exactly on a reference with several orders of one
  store (`Service.WhoDelivers`), as when a checkout lists one store twice (`Witnesses.OneStoreTwice`).
- The rotation of a refresh token reads the token before its transaction, so two refreshes at once
  can leave a family with two working tokens (`Tokens.StaleRotation`, `Tokens.RaceSplitsFamily`).

## Model

| member | source | states |
|---|---|---|
| Negotiation.OpeningSound | services/orders/internal/service/offers.go:393-466 | An opening offer that passes the checks starts a sound negotiation: price bracket, whose turn it is, consent of the vendor to any instant deal, bounded conversation. |
| Negotiation.BuyerMoveSound | services/orders/internal/service/offers.go:527-630 | Whatever the buyer does, the negotiation stays sound, and identity, list price, a settled price and past events never change. |
| Negotiation.VendorMoveSound | services/orders/internal/service/offers.go:649-717 | The same for every vendor move. |
| Negotiation.ExpireSound | services/orders/internal/service/offers.go:770-783 | The same for the expiry sweep, which closes lapsed rows and nothing else. |
| Negotiation.RedeemSound | services/orders/internal/service/offers.go:888-899 | The same for redemption of a deal, also one already marked expired. |
| Negotiation.EveryNegotiation | services/orders/internal/service/offers.go:527-799 | Any sequence of buyer moves, vendor moves, sweeps and payments keeps a negotiation sound; a closed one is left only for expired or redeemed, and the agreed price never moves. |
| Negotiation.BuyerMoveWearsPatience | services/orders/internal/service/offers.go:574-586 | A buyer move that leaves the haggling open uses up the remaining offers and turns: the measure drops and stays non-negative. |
| Negotiation.VendorMoveWearsPatience | services/orders/internal/service/offers.go:683-699 | The same measure drops on every vendor move that leaves it open, so haggling terminates. |
| Negotiation.AtMostNineEvents | services/orders/internal/service/offers.go:43-46 | However it is played, a negotiation has at most three buyer offers, strictly rising, and at most nine events. |
| Negotiation.NineEventsReached | services/orders/internal/service/offers.go:888-899 | Nine is the exact bound: for every product without a floor and every opening at least four below its price some play reaches it. |
| Answers.VendorAnswered | services/orders/internal/service/offers.go:649-717 | A vendor's accept, counter or decline is taken if and only if the offer is on their product, inside its window and in the state each asks for, a counter strictly between offer and list price; accepted, the deal is at the buyer's last offer with 48 hours to buy; every refusal has its error. |
| Answers.BuyerAnswered | services/orders/internal/service/offers.go:527-630 | The same for a buyer's accept, decline, counter and withdrawal: at most three offers, each between the last one and the vendor's counter, and a deal at once from the floor of that moment on. |
| Answers.OpeningAnswered | services/orders/internal/service/offers.go:393-466 | An opening offer passes the checks on product and amount if and only if it is at least half the price and below it, on a listed product open to haggling; the row it leaves, column by column. |
| Answers.SomeoneCanAccept | services/orders/internal/service/offers.go:541-699 | Haggling is never stuck: inside its window an open offer can be accepted by exactly one side, and the deal is at the last amount named. |
| Answers.ShownExactly | services/orders/internal/service/offers.go:143-146 | A reader sees expired exactly on rows that are expired, or not closed with their window past. |
| Answers.VendorStepExact | services/orders/internal/service/offers.go:649-717 | On the whole table: the same condition, one row changed, or nothing changed and the error. |
| Answers.BuyerStepExact | services/orders/internal/service/offers.go:527-630 | The same for the buyer, by link or by email. |
| Honoured.DealHonoured | services/orders/internal/service/offers.go:734-880 | However a deal is struck, by the vendor's or the buyer's acceptance or at the floor, and whatever everyone does afterwards, a checkout line at its price for its buyer is accepted for 48 hours and no longer, as long as nobody has bought with it and its store lists the product. |
| Deals.EveryOfferSound | services/orders/internal/service/offers.go:408-438 | In every state the whole marketplace reaches: list is at most twice the offer, offer below list, a recorded counter between them, no agreed price while open, every deal in [list/2, list) and agreed to by the vendor (floor in force, acceptance of the current offer, or latest counter). |
| Deals.CheckLineHonest | services/orders/internal/service/offers.go:844-880 | A line that passes pricing carries its deal's product, agreed price and buyer, and the running unit count stays within the deal's quantity. |
| Deals.DealIntegrity | services/orders/internal/service/offers.go:812-883 | In every reachable state and interleaving, each order line naming a deal has the deal's product, exactly its agreed price and its buyer, and the order's units on that deal do not exceed its quantity. |
| Deals.RedeemedOnce | services/orders/internal/service/offers.go:885-899 | A redeemed deal was redeemed by one paid order with a line at the agreed price, and neither the price nor that order ever changes afterwards. |
| SingleUse.DealUsedOnce | services/orders/internal/service/offers.go:858-880 | In every run in which no order is placed with a deal that is redeemed, or that another paid or still payable order names, at most one paid order ever names a deal, so the deal's quantity bounds what is bought with it over all orders. |
| Witnesses.DealUsedTwice | services/orders/internal/service/offers.go:858-880 | A run from an unused marketplace, down to its orders: a deal on one unit is bought with twice, by two paid orders at the agreed price. |
| Expiry.ShownAlike | services/orders/internal/service/offers.go:143-146 | A row the sweep has reached and one it has not show the same status to every reader. |
| Expiry.BuyerMoveSwept | services/orders/internal/service/offers.go:541-630 | A buyer move is accepted or refused with the same answer on a lapsed row and on the row the sweep would leave, and the results again correspond. |
| Expiry.VendorMoveSwept | services/orders/internal/service/offers.go:663-717 | The same for vendor moves. |
| Expiry.RedeemSwept | services/orders/internal/service/offers.go:885-899 | A payment redeems a lapsed deal and an expired one alike. |
| Expiry.StepAlike | services/orders/internal/service/offers.go:105-110 | Every step of the marketplace but the sweep gives the same reply in two states that differ only by sweeping, and keeps them so, unless CreateOffer is stopped by a lapsed row alone. |
| Expiry.SweepIndependence | services/orders/internal/service/offers.go:105-110 | Two runs that differ only in where sweeps run, and for which stores, give everyone the same answers and end with the same orders, ledger, redemptions, shown statuses and conversations apart from expire events, provided the run without sweeps never has a CreateOffer that lapsed rows alone stand in the way of (`NeverMeetsStale`). |
| Expiry.SweepsInvisible | services/orders/internal/service/offers.go:105-110 | That proviso is exact: a sweep-free run meets it if and only if no placement of sweeps in it changes any answer. |
| Expiry.CreateDependsOnSweep | services/orders/db/migrations/0016_create_price_offers.sql:52-54 | The one exception, for all inputs: CreateOffer's answer changes with the sweep if and only if every other check passes, the new row would be open, a lapsed open row exists and no live one does. |
| Witnesses.CreateMeetsStale | services/orders/db/migrations/0016_create_price_offers.sql:52-54 | A run in which a second offer, two days after the first, is refused as a conflict, and accepted if a sweep ran just before. |
| Tables.StepOk | services/orders/internal/service/orders.go:863-931 | Every step of every handler keeps the tables consistent (totals, references, own credits, unique references, positive amounts), forgets no order or ledger row and undoes nothing settled. |
| Tables.RunOk | services/orders/internal/service/orders.go:863-931 | The same over whole runs: a ledger row only moves from pending to completed or failed, or from completed to failed, with amount and owner fixed; a payment, a refund and a closed dispute are never undone. |
| Ledger.ApplyOnOrder | services/orders/internal/service/orders.go:294-300 | A release moves exactly the order's pending money to completed; a void empties its pending column; a claw-back empties both. |
| Ledger.ApplyElsewhere | services/orders/internal/service/orders.go:407-411 | An update of one order's rows leaves every other order's money alone. |
| Orders.ActFollows | services/orders/internal/service/orders.go:269-356 | No action on an order changes its lines, total, fee, reference or payment, erases a refund or a release reason, makes it unpaid again, or reopens a refunded or dismissed dispute. |
| Escrow.AtMostOneCredit | services/orders/internal/service/orders.go:49 | In every interleaving an order has at most one ledger row, so its escrow status, read with LIMIT 1, is unambiguous. |
| Releases.ReleasesAreJustified | services/orders/internal/service/orders.go:269-313 | In every run from an unused marketplace, a released order credit belongs to a paid order that has dispatched_at set unless an administrator released it by hand; if the buyer's confirmation released it, dispatched_at, delivered_at and delivery_confirmed_at are all set; what neither the buyer nor an administrator released, a sweep did. |
| Releases.StepStamps | services/orders/internal/service/orders.go:533-584 | Every step of every handler keeps the stamps behind that: shipped or collectable orders are dispatched, delivered ones dispatched, delivered and confirmed, and every row a sweep in flight has read was dispatched. |
| Waiting.SweepWaits | services/orders/internal/service/orders.go:507-547 | The buyer's week, over every run from an unused marketplace: an order's credit is paid out only if the buyer confirmed the delivery, an administrator released it by hand, or the order was sent more than seven days before. |
| SweepRaces.RunAt | services/orders/internal/service/orders.go:560-584 | Whatever a run interleaves, a paid order and its pending credit end where the actions on that order alone take them. |
| SweepRaces.SweepPaysUndelivered | services/orders/internal/service/orders.go:560-584 | From the moment a sweep has read a shipped order to the moment it is about to release it: the release pays an order that is not delivered if and only if the credit was pending at the read and untouched since, and a vendor write or a dispatch in between was to another status than shipped, or came after every mark. |
| SweepRaces.SweepPaysDisputed | services/orders/internal/service/orders.go:540-549 | The release pays an order in open dispute if and only if the credit was pending at the read and untouched since, and the buyer opened a dispute after the read that nobody dismissed. |
| Witnesses.SweepPaysCancelled | services/orders/internal/service/orders.go:560-584 | A run from an unused marketplace in which the vendor is paid for a cancelled order, never delivered, confirmed or refunded. |
| Witnesses.SweepPaysInDispute | services/orders/internal/service/orders.go:315-321 | A run from an unused marketplace in which the vendor is paid while the buyer's dispute is open. |
| Escrow.CreditExactlyWhenPaid | services/orders/internal/service/orders.go:1303-1316 | With id prefixes distinct within a reference and no outside row on a credit's reference, an order has a credit if and only if it has been paid, in every interleaving. |
| Escrow.CreditRefInjective | services/orders/internal/service/orders.go:921-927 | Two credits share a reference only if they share the payment reference and the first eight characters of the order id. |
| Escrow.CreditDroppedWhenTaken | services/orders/internal/service/orders.go:921-929 | A payment always sets paid_at, and writes the credit if and only if its reference is free. |
| Witnesses.SharedPrefix | services/orders/internal/service/orders.go:921-929 | For every two order ids that agree in their first eight characters, a run in which both are paid for on one reference and one vendor is never credited. |
| Escrow.DeliveredButHeld | services/orders/internal/service/orders.go:563-581 | Every step keeps it so that a delivered order with a pending credit stands between the two writes of some auto-release sweep. |
| Escrow.HeldOnlyMidSweep | services/orders/internal/service/orders.go:563-581 | In every run from an unused marketplace, a delivered order holds its credit only while a sweep has marked it and not yet released it. |
| Confluence.PayAllBeside | services/orders/internal/service/orders.go:1300-1324 | Abandoned marks made while a confirmation is in flight do not change what its transaction writes. |
| Confluence.SerialIsTheLoop | services/orders/internal/service/orders.go:1263-1324 | An undisturbed call on a verified reference succeeds and leaves what the payment loop writes. |
| Confluence.FirstCommit | services/orders/internal/service/orders.go:1300-1324 | The first transaction to commit, on a stale read, leaves the orders, ledger and deals a serial call at that moment would. |
| Confluence.Race | services/orders/internal/service/orders.go:1230-1342 | After the first commit every further call, commit and sweep changes nothing about the reference; before it, nothing but abandoned marks. |
| Confluence.Confluence | services/orders/internal/service/orders.go:1230-1342 | Any interleaving of any number of confirmations of a reference (stale reads and commits) with abandoned sweeps ends, once one has committed, in the same orders, ledger and redeemed deals as one serial call at some moment of the run; if none has, ledger and deals are untouched. |
| Bystanders.StepPart | services/orders/internal/service/orders.go:1230-1342 | A step of the marketplace either does not show in a reference's orders, credits, charge and calls in flight, or does to that part alone what it does to the whole; it is assumed not to act on those orders, charge or place on that reference, or pay in or out under one of its credit references. |
| Bystanders.ConfluenceAmongOthers | services/orders/internal/service/orders.go:1230-1342 | The same conclusion for the reference's orders and credits when, between the racing confirmations, anyone haggles, checks out, pays, ships, disputes, sweeps, deposits or withdraws elsewhere. |
| Charges.PayingWhole | services/orders/internal/service/orders.go:1276-1281 | A read of a reference that adds up to its charge has read exactly the orders the charge covers, in whatever order they came back. |
| Charges.PayingGrows | services/orders/internal/service/orders.go:1276-1281 | Once a charge covers some orders of a reference, later checkouts on that reference do not change which. |
| Payments.PayAllWrites | services/orders/internal/service/orders.go:1300-1324 | The payment loop confirms exactly the unpaid orders of its rows, credits each one's own store with its lines (and the fee of a lone order) under its own reference, and redeems exactly the deals they were bought with. |
| Conservation.ActAccount | services/orders/internal/service/orders.go:436-488 | Every proper action on an order keeps its account: unpaid, it has no row, no money, no refund and can still be paid; paid, it has one row, and total = pending + completed + platform share, or it was refunded once in full with no live credit. |
| Conservation.ProperExactly | services/orders/internal/service/orders.go:436-488 | On any order with a sound account an action keeps the account if and only if it is proper, that is, it is none of these: an accepted vendor write or a dispatch on an unpaid order, a refund of an unpaid or already refunded order, a no-show refund after the credit was paid out. |
| Conservation.NoShowRefundBalances | services/orders/internal/service/orders.go:477-482 | A no-show refund keeps the account if and only if the credit had not been paid out. |
| Charges.SumPermutation | services/orders/internal/service/orders.go:1276-1281 | The verified sum does not depend on the order in which the rows come back. |
| Conservation.StepKept | services/orders/internal/service/orders.go:1276-1324 | Every disciplined step of every handler, sweeps in flight included, keeps all accounts, all charges and all calls in flight consistent. |
| Conservation.RunKept | services/orders/internal/service/orders.go:1276-1324 | The same over whole runs. |
| Conservation.SplitsAddUp | services/orders/internal/service/orders.go:915-921 | Orders with sound accounts: their totals are live vendor credits plus refunds plus delivery fees the platform keeps, and those fees are never negative. |
| Conservation.PaidIsPaying | services/orders/internal/service/orders.go:1276-1324 | What has been paid for on a reference, at any point of a disciplined run, is nothing or exactly the orders its charge covers. |
| Conservation.Conservation | services/orders/internal/service/orders.go:366-419 | In every disciplined run and for every reference, shared by several checkouts or not: charge = live vendor credits + refunds + platform delivery fees, summed over its paid orders, through delivery, auto-release, dispatch, vendor writes, early release, no-show and dispute refunds; no order is refunded twice and refunds never exceed the charge. |
| Baskets.BasketSplit | services/orders/internal/service/orders.go:1276-1316 | For a checkout of any number of stores on a reference no other checkout uses, in every disciplined run, once paid and before any refund: the charge is all line totals plus one fee, the credits are the line totals plus the fee only for a lone order, and the platform keeps nothing of a lone order and the fee of a basket. |
| Shares.StoreSplit | services/orders/internal/service/orders.go:1189-1200 | For the same checkouts and runs, store by store: the ledger credits each store with exactly the lines it sold, and with the delivery fee only if its order is alone. |
| Shares.PaymentHolds | services/orders/internal/service/orders.go:1303-1316 | At the moment such a checkout is paid for, whenever the confirmation read its rows, what each store holds rises by exactly its share. |
| Shares.OpeningExact | services/orders/internal/service/orders.go:1149-1152 | A checkout is taken up if and only if it has a reference, at least one store, and lines of positive quantities at no negative price from each. |
| Shares.PlacingExact | services/orders/internal/service/orders.go:1188-1207 | Once its lines are priced, its orders are written if and only if every store's lines come to more than nothing and a pick-up has no fee: one order per store, that store's, in order. |
| Baskets.InsertedColumns | services/orders/internal/service/orders.go:1189-1200 | The orders a checkout inserts, column by column: each is its own store's, with that store's lines, the buyer, the reference and the pick-up flag of the request, the fee on the first only, unpaid and created now; no other order changes. |
| Orders.LinesAddUp | services/orders/internal/service/orders.go:864-867 | A line costs price times quantity, and lines add up. |
| Wallet.WalletBound | services/orders/internal/service/orders.go:1418-1438 | In every run with atomic withdrawals a store's balance is never below minus what was clawed back from it after release. |
| Wallet.ReleaseMovesHeldToEarned | services/orders/internal/service/orders.go:294-300 | Confirming delivery keeps held + earned of every store, and raises the balance by exactly what stops being held. |
| Statements.WalletAddsUp | services/orders/internal/service/orders.go:1370-1378 | Every wallet adds up, in every run from an unused marketplace: balance = order credits paid out and not taken back + bank transfers, each reference once - withdrawals; earned leaves the withdrawals out; held = pending order credits. |
| Statements.DepositCredits | services/orders/internal/service/webhooks.go:114-121 | A bank transfer under a new reference raises its store's balance and earnings by exactly the amount; one on record, empty or not positive by nothing; no other store's money and nothing held moves. |
| Disputes.RefundIsFinal | services/orders/internal/service/orders.go:366-419 | Once a dispute is refunded it stays so, and its order never again has a pending or completed credit, in any interleaving. |
| Disputes.VendorCancelNeverRefunds | services/orders/internal/service/orders.go:647-693 | A vendor's cancellation never refunds the buyer and never touches the credit, and a later no-show refund does nothing. |
| Disputes.VendorWriteBlocksPayment | services/orders/internal/service/orders.go:619-678 | Any vendor write accepted on an order puts it out of reach of payment: a confirmation passes over it and writes no credit. |
| Disputes.ReopenedOrderLosesMoney | services/orders/internal/service/orders.go:619-678 | Reopening a delivered, paid-out order lets a no-show refund go through in full while the credit stays paid out, for every order with such an account. |
| Witnesses.ReopenedAndRefunded | services/orders/internal/service/orders.go:619-678 | A run from an unused marketplace, down to its ledger: a charge of 1200 ends with 1200 paid out and 1200 refunded. |
| Service.CheckLineExact | services/orders/internal/service/offers.go:814-881 | A line is accepted if and only if it is at the catalogue price or at a live deal's agreed price for that buyer and product, and the deal's quantity covers all lines so far. |
| Service.PriceLineExact | services/orders/internal/service/offers.go:812-883 | The machine's pricing turn takes a line on exactly that condition and moves to the next; a refusal ends the checkout. |
| Baskets.TotalsReconcile | services/orders/internal/service/orders.go:1188-1205 | For any number of stores, the order totals of a checkout add up to all line totals plus one delivery fee: the amount the charge is verified against. |
| Service.WhoDelivers | services/orders/internal/service/orders.go:1286-1289 | The one-target test agrees with the derived fulfilment column on every order of the reference if and only if the order is alone or several stores share the reference. |
| Witnesses.OneStoreTwice | services/orders/internal/service/orders.go:50-58 | A run in which one store is listed twice in a checkout: both orders say the vendor delivers, and the delivery fee is credited to no vendor. |
| AutoRelease.SweepUndisturbed | services/orders/internal/service/orders.go:533-584 | The machine's read and writes of a sweep, with nothing in between, deliver and release exactly its rows and change nothing else. |
| AutoRelease.AutoReleaseTwice | services/orders/internal/service/orders.go:536-539 | A second auto-release at the same cutoff finds no row. |
| Service.DepositTwice | services/orders/internal/service/webhooks.go:114-121 | A deposit webhook delivered again changes nothing. |
| Service.OrdersService.CreateOffer | services/orders/internal/service/offers.go:393-466 | Accepted if and only if the amount is at least half the price and below it on a listed product open to haggling, fewer than three openings were made in 24 hours, and it is a deal at once or no open row stands; inserts the row and its one or two events; each refusal has its error, in the order of the source, and changes nothing. |
| Service.OrdersService.SettleOffer | services/orders/internal/service/offers.go:734-749 | Sets the status, keeps an agreed price unless given one, and opens a fresh window only for an accepted deal. |
| Service.OrdersService.CounterAsBuyer | services/orders/internal/service/offers.go:574-609 | The buyer's new offer: checked, recorded, and accepted on the spot at or above the floor of that moment. |
| Service.OrdersService.RespondAsBuyer | services/orders/internal/service/offers.go:527-630 | The buyer's move, statement by statement: taken if and only if it may be, leaving exactly the row it should; a refusal has its error and changes nothing. |
| Service.OrdersService.RespondAsVendor | services/orders/internal/service/offers.go:649-717 | The same for the vendor: accept and counter on a pending offer, decline on an open one, all inside the window and on the store's own offers only. |
| Service.OrdersService.ExpireOffers | services/orders/internal/service/offers.go:770-783 | Exactly the pending, countered and accepted rows in scope whose window is past become expired and gain one event. |
| Service.OrdersService.PriceItems | services/orders/internal/service/offers.go:812-883 | The loop with its running unit counts accepts a store's lines if and only if every line is at the server's price and no deal is stretched past its quantity over the whole order. |
| Service.OrdersService.PriceBaskets | services/orders/internal/service/orders.go:1159-1168 | Accepts a checkout if and only if every store's lines are accepted. |
| Service.OrdersService.InsertOrdersTx | services/orders/internal/service/orders.go:1188-1207 | Inserts one unpaid order per store, with that store's lines and the fee on the first, or refuses for an empty total or a pick-up fee, with the error that comes first. |
| Service.OrdersService.PlaceCheckout | services/orders/internal/service/orders.go:1149-1212 | All orders or none; succeeds if and only if every store's lines are agreed and come to more than nothing and a pick-up has no fee; each order written is its own store's, column by column; what it wrote adds up to the lines plus one delivery. |
| Service.OrdersService.ReadTargets | services/orders/internal/service/orders.go:1263-1281 | Finds out whether anything is still unpaid, and the sum of all totals on the reference. |
| Service.OrdersService.PayTargets | services/orders/internal/service/orders.go:1303-1324 | The transaction's loop pays, credits and redeems exactly what still awaits payment. |
| Service.OrdersService.ConfirmPayment | services/orders/internal/service/orders.go:1230-1342 | One undisturbed call succeeds if and only if the reference has orders and none is unpaid or the charge is their total; exactly the unpaid ones are confirmed and credited and their deals redeemed; its whole new state is that of the machine's read and commit. |
| Service.OrdersService.MarkAbandonedOrders | services/orders/internal/service/checkout.go:80-95 | Exactly the unpaid orders older than ten minutes become abandoned; nothing else changes. |
| Service.OrdersService.ConfirmDelivery | services/orders/internal/service/orders.go:269-313 | Delivers and releases if and only if the right buyer confirms a shipped or collectable order; the order's new columns and ledger rows; otherwise the error, and nothing changes. |
| Service.OrdersService.ReportMissing | services/orders/internal/service/orders.go:322-356 | Opens a dispute, once, if and only if that buyer reports a shipped or delivered order that was never refunded or dismissed. |
| Service.OrdersService.DisputeRefund | services/orders/internal/service/orders.go:366-419 | Refunds a reported dispute if and only if it was paid through Paystack, which agrees: cancelled, refunded once in full, pending and completed credits failed; a refunded one is left as it is; otherwise the error, and nothing changes. |
| Service.OrdersService.NoShowRefund | services/orders/internal/service/orders.go:428-488 | Refunds and cancels an order that has not left if and only if it was paid through Paystack, which agrees, voiding its pending credit only; a cancelled one is left as it is; otherwise the error, and nothing changes. |
| Service.OrdersService.CancelAndRefundOrder | services/orders/internal/service/orders.go:436-488 | The shared path behind it, for any reason: the same condition, columns and ledger rows. |
| Service.OrdersService.UpdateOrderStatus | services/orders/internal/service/orders.go:647-693 | A vendor's write is taken if and only if the order is theirs and the status one they may set (shipped only where they deliver themselves, ready only for a pick-up); it writes the status and a first dispatch time, and never the ledger. |
| Service.OrdersService.ReleaseOverdueEscrow | services/orders/internal/service/orders.go:533-584 | Delivers and releases exactly the orders shipped more than seven days ago, unconfirmed and without an open dispute; every other order and ledger row is as it was; the result is that of the machine's steps run undisturbed. |
| Service.OrdersService.GetWallet | services/orders/internal/service/orders.go:1370-1378 | Balance, earned and held are the three sums over the store's rows. |
| Service.OrdersService.Withdraw | services/orders/internal/service/orders.go:1418-1438 | Pays out if and only if the amount is at least 100 kobo, the balance covers it and its reference is new; the balance falls by exactly that amount and stays non-negative; no other sum of any store moves. |
| Service.OrdersService.HandlePaystackWebhook | services/orders/internal/service/webhooks.go:58-129 | A checkout charge is confirmed as one call would and its failure swallowed; a bank transfer raises its store's balance and earnings by exactly its amount if its reference is new, and no other sum of any store; any other event changes nothing. |
| Batches.PickMembers | services/admin-api/src/batches/repo.ts:201-222 | An order is on a dispatch list if and only if it is in the batch with that fate. |
| Batches.FatesPartition | services/admin-api/src/batches/repo.ts:201-222 | Shipped, refunded and failed together list every confirmed or at-hub order of the batch once, and no other. |
| Batches.AtHubShips | services/admin-api/src/batches/repo.ts:205-211 | Every order checked in at the hub ships. |
| Batches.DispatchAgain | services/admin-api/src/batches/repo.ts:201-222 | A second dispatch ships nothing, and touches exactly the orders the first failed to refund. |
| Batches.HubDesk.HubIntake | services/admin-api/src/batches/repo.ts:167-178 | Checks in an order if and only if it is confirmed, stamping its arrival. |
| Batches.HubDesk.DispatchOrder | services/admin-api/src/batches/repo.ts:202-222 | One turn of the dispatch loop: a waiting order ships if it reached the hub, else is refunded if it was paid through Paystack, which agrees, else fails; its new row, and its held credit voided only on a refund. |
| Batches.HubDesk.DispatchBatch | services/admin-api/src/batches/repo.ts:190-225 | The three lists are the batch's orders by fate, in whatever order the query returned them; each order is on the list of its fate and has the row that fate leaves; exactly the refunded orders lose their held credit. |
| Batches.HubDesk.ReleaseEscrow | services/admin-api/src/batches/repo.ts:243-254 | Succeeds if and only if a pending credit exists; then exactly that order's pending credit is completed, and the order's status is untouched. |
| Batches.HubDesk.DismissDispute | services/admin-api/src/batches/repo.ts:259-270 | Closes a reported dispute without money moving; anything else is refused. |
| Tokens.EveryRun | services/auth/internal/service/auth.go:599-659 | In every serial run of logins, refreshes, logouts and resets each family has at most one working token, and a family with none never gains one. |
| Tokens.ReuseEndsFamily | services/auth/internal/service/auth.go:607-610 | Presenting a revoked token is refused and ends its family for good. |
| Tokens.ResetEndsSessions | services/auth/internal/service/auth.go:297-305 | A password reset ends every family of the user for good and leaves other users' tokens alone. |
| Tokens.RefreshRotates | services/auth/internal/service/auth.go:621-640 | After a successful refresh the new token is the only working one of its family. |
| Tokens.RefreshInTime | services/auth/internal/service/auth.go:607-614 | A token that has not been revoked refreshes if and only if its user exists and at most 30 days have passed since the login or refresh that issued it, whatever was served in between; too late, it is refused and nothing changes. |
| Tokens.SessionLasts | services/auth/internal/service/auth.go:599-640 | From a login on, a session whose refreshes come within 30 days of each other never ends by itself or by what others do. |
| Tokens.StaleRotation | services/auth/internal/service/auth.go:600-640 | A rotation on a token read earlier keeps families sound if and only if no sibling of that token works at that moment. |
| Tokens.RaceSplitsFamily | services/auth/internal/service/auth.go:600-640 | Two refreshes that both read one live token leave two working tokens. |
| Tokens.AuthService.RefreshTokens | services/auth/internal/service/auth.go:599-640 | Succeeds if and only if the token is known, unrevoked, not past its expiry and its user exists; then it is replaced by one good for 30 days. A revoked one ends its family; every other refusal changes nothing; each has its error. |
| Tokens.AuthService.Logout | services/auth/internal/service/auth.go:652-659 | The presented token stops working if it exists, and no other token changes. |
| Tokens.AuthService.ResetPassword | services/auth/internal/service/auth.go:297-305 | Exactly the user's tokens stop working, row by row, so that every family the user has is dead and nothing else about any token changes. |
| Limiters.SpacedIsLimited | services/identity/internal/service/identity.go:377-381 | If attempts four apart are a day apart, no 24-hour half-open window holds more than three. |
| Limiters.KycLimit | services/identity/internal/service/identity.go:388-402 | Whenever attempts are made, at most three are let through in any 24-hour half-open window. |
| Limiters.KycNeverLocksOut | services/identity/internal/service/identity.go:388-402 | After any run of attempts and refusals, an attempt 24 hours after the last accepted one is let through. |
| Limiters.KycAgainstWindow | services/identity/internal/service/identity.go:377-394 | In every state a run can reach and at every moment, the limiter answers as a rolling 24-hour window of three would, if and only if it is not the case that three are counted, the last accepted is inside the window and the third last outside it. |
| Limiters.KycRefusesEarly | services/identity/internal/service/identity.go:377-394 | A run in which the limiter refuses with a single accepted attempt in the window. |
| Limiters.VendorProfile.RecordAttempt | services/identity/internal/service/identity.go:388-402 | Refuses if and only if three are counted and the last is less than 24 hours old; otherwise counts the attempt, from one again after three, and stamps it. |
| Limiters.OfferLimit | services/orders/internal/service/offers.go:421-430 | In every run at most three negotiations of one buyer on one product open in any 24-hour half-open window. |

## Left out

- Paystack's HTTP calls: verification succeeds when the charge under the reference equals the expected amount, a refund succeeds or does nothing.
- Emails, WebSocket and Redis events, logs and the error queue: no effect on the modelled tables.
- HTTP handlers, request validation beyond what the model cites, JWT and HMAC signing, bcrypt and one-time codes: a caller is authorised or not.
- Catalogue and storefront search, analytics, customer lists, uploads, addresses and plan limits: single-table behaviour; a product's price, floor and flags are inputs that change between steps.
- Choosing the delivery option (`computeDeliveryFeeKobo`, `basketDeliveryFee`): the fee and the pick-up flag are part of the request. `PlaceOrder` is a checkout of one store whose fee is looked up per store.
- `claimPaymentReference`: nothing calls it.
- Orders with no payment reference, older than order-first checkout: new orders always have one.
- Free text, images, names, phone numbers, `updated_at`, refund references and message bodies.
- Failing statements and rolled-back commits, except refusals the code itself makes; `RevokeTokenFamily`'s ignored failure.
- int64 and int32 overflow of kobo sums and deal units.
- SweepRaces.SweepPaysUndelivered: one order at a time, from a row the sweep has read; the condition names the actions on that order, as they were accepted.
- Refund and withdrawal races: `Withdraw`, `ReportMissing`, `UpdateOrderStatus`, the refund calls and the daily count in `CreateOffer` read before they write; each is one step here.
- A product and a deal read for the same checkout line are one step; different lines are different steps.
- Dispatch reads its batch once and each order is then handled from that read; the model has no step between them.
- Smile ID verification and the vendor's KYC status: only the limiter in front of them.
- Conservation.Conservation: assumes that every action of a vendor or an administrator is proper, and what Escrow.CreditExactlyWhenPaid assumes; the code enforces neither. Conservation.ProperExactly shows that the first cannot be weakened action by action.
- Baskets.BasketSplit: assumes the same, and that the checkout is alone on its reference.
- Shares.StoreSplit: assumes what Baskets.BasketSplit does.
- Shares.PaymentHolds: assumes what Baskets.BasketSplit does.
- Waiting.SweepWaits: counts any earlier dispatch; an order that its vendor puts back and that is sent again can still be paid out by a sweep that had read it before.
- SingleUse.DealUsedOnce: the code does not enforce its condition on placing; Witnesses.DealUsedTwice is a run that breaks it.
- Bystanders.ConfluenceAmongOthers: says nothing of deals, which other references may redeem in between; Confluence.Confluence does, for confirmations of one reference.
- Escrow.CreditExactlyWhenPaid: assumes order ids with distinct eight-character prefixes on one reference, and deposits and payouts that do not use a credit's reference; Escrow.CreditDroppedWhenTaken covers the rest.
- Tokens.EveryRun: serial calls only; Tokens.StaleRotation says what a stale read does.
