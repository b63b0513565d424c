# A verified model of the shop's transactional core

The application serves many stores: carts become orders, orders take stock and redeem coupons, three
payment providers and the merchants themselves settle them, and paid digital goods are sent as expiring
links. No single handler guarantees what a store relies on, such as stock never going below zero or a
payment never being lost; each guarantee is spread over request handlers, webhooks and background jobs.
This project models those handlers in Dafny and proves the guarantees over whole runs. Where one has a
hole, it proves exactly when it holds and exhibits the run that breaks it.

Two models of an order are used.

- **Serialised.** `Domain` to `Settlement` give each request, webhook, job or sweep as a function from one
  database state to the next, a throw keeping nothing; `History` runs any sequence of them, and `Frames`
  says what each leaves alone. `CheckoutLaws`, `EditOutcomes`, `SettlementLaws`, `StatusLaws` and
  `LinkLaws` say what each comes to in the terms of its inputs alone: exactly when it is refused, which
  amounts, lines, refunds and links it leaves. `OrderLaws`, `Conservation`, `TotalsHistory` and
  `PaymentHistory` hold the results over every run. `Tables`, `OrdersService`, `PaymentsService` and
  `StaleOrders` write the same tables in place, loop by loop, as the services do, and each method is
  proved to leave exactly the state its function gives.
- **Interleaved.** `Race` splits status changes, the stale-order sweep, the providers' settlements, the
  opening of PayPal checkouts and PayPal's own refunds and disputes at their reads, conditional UPDATEs
  and commits, any number in flight, any transaction free to abort. `RedeemRace` does the same for clicks
  on a download link, email preparations and a revocation. `RaceSerial` and `RedeemSerial` prove that a
  handler nobody interrupts does the same in both models.

Beside them stand smaller state machines and codecs: `Pricing` and `StripeSession` (amounts), `AfterCommit`
(hooks of nested transactions), `Billing` (plan webhooks in any order), `ScheduledPrices` and `PricePlans`,
`MobileTokens` and `TokenLaws` (rotating refresh tokens), `Notices` and `NoticeLaws` (the end of a paid
plan) and `Csv` (exports, with a reader following section 2 of RFC 4180).

Amounts are whole cents, tax rates thousandths of a percent, coupon percentages hundredths, and instants
integers. A download token or refresh token is a number never handed out before. `dafny verify
dfyconfig.toml` checks the whole project.

## What the code does not keep

Each of these is a theorem about the code as it stands.

- A staff cancellation read before a payment landed and claimed after it leaves the payment recorded and
  not returned: the claim compares the status only (`Race.MoneyReturnedIffReadSawPaid`,
  `Race.StaleCancelStrandsPayment`). The revocation of its download links tests the same stale read, so
  the cancelled order goes on serving its files (`Race.ClosingServesIffStale`). Marking it cancelled once
  more writes that the payment was returned, and still nobody is asked for it
  (`Race.ReturnedUnaskedIff`, `Race.MarkedAgainFalselyReturned`).
- A buyer who opens a second PayPal checkout replaces the order's PayPal order: when the capture of the
  first one completes after that, an eCheck say, it is neither recorded nor returned, although the order
  still waits for exactly that amount (`Race.ReadDropsPaymentIff`, `Race.ReplacedCheckoutKeepsPayment`,
  `Settlement.SettleKeepsIff`, `Settlement.ReplacedCheckoutIgnored`).
- On a PayPal order that same stale cancellation can be relabelled REFUNDED by PayPal's own refund, long
  after its stock was given back (`Race.ClosedLabelChangesIff`, `Race.CancelledTurnsRefunded`).
- A payment for an unpaid order labelled REFUNDED is neither recorded nor returned
  (`Race.ReadDropsPaymentIff`, `Race.RefundedLabelKeepsPayment`), nor is a PayPal capture that loses the
  race to a cancellation (`Race.RaceDropsPaymentIff`).
- An online order marked PAID with no charge on record, as an edit can mark a PayPal order, ignores every
  payment that comes after, without returning it (`Settlement.SettleKeepsIff`).
- A payment of the wrong amount is asked back, and if the order is then edited to that very amount a
  redelivered report confirms the order with it (`PaymentHistory.TakenOnItsWayBackIff`,
  `PaymentHistory.RefundedThenTaken`).
- A PayPal dispute reopens an order to payment: a second capture then replaces the recorded one
  (`Race.ChargeReplacedIff`).
- The comment on `afterCommit` says it runs a hook at once when there is no transaction, and its catch is
  meant to log failures; a hook that throws before it returns a promise is not caught there and ends the
  request (`AfterCommit.EscapesIff`). One that rejects there is logged whenever its promise settles, even
  after hooks and commits that came later (`AfterCommit.RejectionsOvertake`).
- A resend that read a delivery before its revocation can revive a link after it, and a click that had
  read before the revocation too then downloads (`RedeemRace.LateDownloadIff`,
  `RedeemRace.StaleResendRaisesLink`).
- An order placed with one product on two lines is priced once and stored twice by its next edit
  (`EditingTotals.BilledIffUnrepeated`, `OrderTotals.RepeatedLinesDrift`).
- In a currency without a minor unit the Stripe session may not total what the webhook expects
  (`StripeSession.ZeroDecimalTotalsIff`, `StripeSession.HalfUnitsDisagree`).
- The guard against late plan payments compares subscription ids, and a lifetime plan has none
  (`Billing.LifetimeKeptIff`).
- A redelivered checkout of a replaced plan subscription switches back to it while Stripe still has it
  paid up (`Billing.LastCheckoutWins`).
- A plan payment that lands while a downgrade is in flight is overwritten by it
  (`Notices.PaymentDuringDowngrade`).
- The comment on releasing a claimed notice says a failed downgrade would otherwise never be retried; once
  the row was moved to a free plan, releasing does not make its mail retried either
  (`Notices.DowngradeMailRetriedIffNoFreePlan`).
- A CSV whose last row is one empty field loses that row in a reader that allows a final line break
  (`Csv.CsvRoundTripIff`).

## Model

| member | source | states |
|---|---|---|
| `Race.RecordOrRefund` | src/modules/payments/payments.service.ts:151-219 | Any interleaving of paid deliveries, status changes, sweeps, PayPal checkouts and reversals of one unedited online order, up to a PayPal dispute: every finished delivery of a payment left it recorded, or asked for its refund, or had read the order REFUNDED and unpaid, or was a PayPal capture for a checkout the order has replaced or one that lost the race to a cancellation; and a recorded payment is refunded only on a terminal order, or by a staff transaction that is open or failed to commit after the provider accepted |
| `Race.ChargeIsWriteOnce` | src/modules/payments/payments.service.ts:170-207 | Over the same runs and every continuation, whatever the payment method: a recorded payment id is never replaced and the order invoiced once unless PayPal disputes it; a closed order stays closed, and under its own label unless it is PayPal's |
| `Race.ChargeReplacedIff` | src/modules/payments/payments.service.ts:439-468 | From any reachable state with a recorded payment, some continuation replaces it if and only if the order is PayPal's and open and another payment of the right amount has passed its read, or is for a checkout that the order pays or may yet pay through: a dispute makes room for it |
| `Race.ReleasedExactlyOnce` | src/modules/orders/orders.service.ts:740-768 | For an order of any payment method, aborted transactions and reversals included: stock and coupon use have been given back exactly once if the order was ever committed CANCELLED and never otherwise, and except on PayPal orders that is exactly when it still is |
| `Race.ReadDropsPaymentIff` | src/modules/payments/payments.service.ts:436-453 | At its read a delivery of an unrecorded payment finishes with it neither recorded nor asked back if and only if it is not for the order's current PayPal order, or the order is labelled REFUNDED and unpaid |
| `Race.ForeignOnlyAtRead` | src/modules/payments/payments.service.ts:436-445 | No later step finds a payment not to be the order's own |
| `Race.ReplacedCheckoutKeepsPayment` | src/modules/payments/payments.service.ts:360-388 | A concrete run: the buyer opens a second PayPal checkout, the first one's capture completes, and the open order neither records nor returns it |
| `Race.RefundedLabelKeepsPayment` | src/modules/payments/payments.service.ts:178-184 | A concrete run: staff label an unpaid online order REFUNDED and the payment that follows is neither recorded nor returned |
| `Race.RaceDropsPaymentIff` | src/modules/payments/payments.service.ts:465-473 | After losing the conditional UPDATE it does so if and only if the order is PayPal's and the winner recorded no capture |
| `Race.ClosedLabelChangesIff` | src/modules/payments/payments.service.ts:572-585 | From any reachable state with a closed order, some continuation changes its label if and only if it is a cancelled PayPal order still PAID, or a re-marking read under another label is under way |
| `Race.CancelledTurnsRefunded` | src/modules/payments/payments.service.ts:579-582 | A concrete run on a PayPal order: a stale cancellation leaves it CANCELLED and PAID, and PayPal's own refund then writes REFUNDED after its stock was given back |
| `Race.FreshClaimsReturnMoney` | src/modules/orders/orders.service.ts:713-773 | If every staff claim finds the row as it was read and nothing is disputed, a cancelled or refunded online order is not PAID and its recorded payment was asked back, or taken back by PayPal, and no closed order serves its files |
| `Race.MoneyReturnedIffReadSawPaid` | src/modules/orders/orders.service.ts:733-773 | The claim checks the status only: a staff move of a charged online order to a terminal status asks for the payment back if and only if the earlier read already saw it paid, and under another status |
| `Race.ReturnedUnaskedIff` | src/modules/orders/orders.service.ts:732-773 | Such a move writes that the payment was returned without asking anyone for it if and only if it re-marks the order with the terminal label it was read under, while read as PAID |
| `Race.StaleCancelStrandsPayment` | src/modules/orders/orders.service.ts:740-746 | A concrete run of such steps that ends with the order cancelled, the payment recorded and no refund asked |
| `Race.MarkedAgainFalselyReturned` | src/modules/orders/orders.service.ts:734-750 | A concrete run: the stranded order is marked cancelled again and says its payment was returned; no refund or reversal was ever asked |
| `Race.ClosingServesIffStale` | src/modules/orders/orders.service.ts:740-756 | In any reachable state the step that closes an order leaves its files served if and only if it is a staff claim that had read the order unpaid and finds it paid with live links; once a closed order's files are not served, no step serves them again |
| `Race.ServedClosedWasStale` | src/modules/orders/orders.service.ts:740-756 | So over every run a closed order that serves its files was closed by such a claim |
| `RaceSerial.StatusChangeAlone` | src/modules/orders/orders.service.ts:713-773 | A status change nobody interrupts does in the interleaved model what it does in the serialised one: row, links, refunds asked, give-back |
| `RaceSerial.SettlementAlone` | src/modules/payments/payments.service.ts:151-219 | A reported payment nobody interrupts leaves in both models the same row, links and refunds asked |
| `RaceSerial.ExpiryAlone` | src/queue/processors/stale-orders.processor.ts:48-84 | The sweep reaching one order does in both models the same: row and give-back |
| `RaceSerial.ReversalAlone` | src/modules/payments/payments.service.ts:570-585 | A refund or dispute on PayPal's side leaves in both models the same row and links |
| `RaceSerial.CheckoutAlone` | src/modules/payments/payments.service.ts:360-388 | The opening of a PayPal checkout is refused in both models or sets the same current checkout |
| `RedeemRace.DownloadsBounded` | src/modules/digital/digital.service.ts:131-285 | Any interleaving of clicks, preparations and a revocation, split at reads and writes: the counter never passes the limit, and all downloads together are at most the limit times the number of preparations that wrote |
| `RedeemRace.LateOnlyIfRaised` | src/modules/digital/digital.service.ts:131-178 | A download after the revocation happens only if a preparation wrote after it |
| `RedeemRace.RevocationHolds` | src/modules/digital/digital.service.ts:224-236 | Once revoked, no continuation serves a file if no click was in flight, or the link is dead and no preparation was |
| `RedeemRace.LateDownloadIff` | src/modules/digital/digital.service.ts:262-285 | After a revocation some continuation serves a file if and only if a click had read before it and not yet written, and the link was raised by a preparation or one is still to write |
| `RedeemRace.StaleResendRaisesLink` | src/modules/digital/digital.service.ts:239-253 | A concrete run in which a resend read before the revocation revives the link and a click is served |
| `LinkLaws.ClickServedIff` | src/modules/digital/digital.service.ts:262-285 | A click is served exactly for the current token of a PAID order, not revoked, before its end, with a download left; one download of that link is counted and nothing else changes |
| `LinkLaws.PreparedRenews` | src/modules/digital/digital.service.ts:131-178 | An email renews every link of a PAID order with an address whose delivery is not revoked, and not sent unless resent: new distinct tokens, no download used, a whole term; otherwise nothing changes |
| `LinkLaws.MailedLinkServes` | src/modules/digital/digital.service.ts:131-285 | Of any clicks on a link just mailed, exactly as many are served before its term ends as it has downloads, and none afterwards |
| `LinkLaws.DeliveredLinks` | src/modules/digital/digital.service.ts:86-109 | A first delivery has one unused link per file for the store's term and limit, under tokens nobody has seen |
| `LinkLaws.OneLinkPerToken` | src/modules/digital/digital.service.ts:153-161 | Over every run a token opens one link of one order and no other |
| `RedeemSerial.ClickAlone` | src/modules/digital/digital.service.ts:262-285 | A click nobody interrupts does in the interleaved model what it does to the tables, and is served in both or in neither |
| `RedeemSerial.MailAlone` | src/modules/digital/digital.service.ts:131-178 | The preparation of an email leaves the same link in both models, under a new token |
| `RedeemSerial.RevocationAlone` | src/modules/digital/digital.service.ts:224-236 | A revocation leaves the same link in both models |
| `RedeemSerial.NewsAlone` | src/modules/digital/digital.service.ts:182-198 | The mail going out and a change of the payment status do the same in both models |
| `OrderLaws.TerminalIsFinal` | src/modules/orders/orders.service.ts:713-750 | Over every run of all handlers nothing leaves CANCELLED or REFUNDED; a cancelled PayPal order is never PAID, nor is a refunded order |
| `OrderLaws.NoDownloadAfterTheEnd` | src/modules/digital/digital.service.ts:262-285 | On every reachable state a click that downloads is for an order neither cancelled nor refunded |
| `OrderLaws.RevokedForGood` | src/modules/digital/digital.service.ts:224-236 | Once a delivery is REVOKED no continuation changes it and no link of it downloads, even if the payment turns PAID again |
| `OrderLaws.CardOrderInvoicedOnce` | src/modules/payments/payments.service.ts:197-209 | Over every run a Stripe or MercadoPago order is invoiced at most once by its settlements |
| `Settlement.ClaimKeepsTrackIff` | src/modules/payments/payments.service.ts:465-473 | Whatever row the conditional UPDATE finds, the payment ends recorded on it or asked back if and only if that row can be claimed, is not PayPal's, or has a capture on record |
| `Settlement.SettleKeepsIff` | src/modules/payments/payments.service.ts:436-490 | A whole settlement leaves a new payment neither recorded nor asked back if and only if the payment is not the order's own, or the order is REFUNDED and unpaid, or PAID with no charge on record |
| `SettlementLaws.PaysIffExact` | src/modules/payments/payments.service.ts:183-210 | A report of the order's own pays a waiting order if and only if the currency is its own and the amount exactly what it totals: to the cent, or the nearest whole units half up in a currency without cents; any other amount changes no order and is asked back |
| `SettlementLaws.SettleReturns` | src/modules/payments/payments.service.ts:436-480 | The refunds a report asks for, on every input: a second payment of a paid order, any of a cancelled one, a wrong amount; and no other |
| `SettlementLaws.DeclineFails` | src/modules/payments/payments.service.ts:422-428 | A decline of the order's own capture writes FAILED over PENDING; any other decline changes nothing |
| `SettlementLaws.OpenedThenPaid` | src/modules/payments/payments.service.ts:360-388 | A PayPal checkout is refused exactly to orders that are not PayPal's, paid or closed; once opened, the exact payment through it and through no other confirms the order |
| `SettlementLaws.LostShows` | src/modules/payments/payments.service.ts:570-585 | What a refund or dispute on PayPal's side writes, by the row it finds; the order's delivery is then revoked |
| `SettlementLaws.OthersLoseNothing` | src/modules/payments/payments.service.ts:572-577 | A reversal of anything but the order's recorded capture changes nothing |
| `SettlementLaws.ZelleConfirmedIffProven` | src/modules/payments/payments.service.ts:632-665 | A merchant can confirm a Zelle order if and only if it is open and paid or its evidence is in |
| `PaymentHistory.PaidInFull` | src/modules/payments/payments.service.ts:183-210 | Over every run a Stripe or MercadoPago order that is PAID was paid by one report of its own whose amount is exactly what the order totals now, whatever was edited before and after |
| `PaymentHistory.PaidTotalIsFinal` | src/modules/orders/orders.service.ts:808-819 | From the moment such an order is PAID its grand total and recorded payment never change on any continuation |
| `PaymentHistory.ReturnedWasAsked` | src/modules/orders/orders.service.ts:764-773 | Over every run such an order whose payment reads REFUNDED is closed and has had its recorded charge asked back |
| `PaymentHistory.AskedExactly` | src/modules/orders/orders.service.ts:713-773 | Every request adds to the refunds asked for exactly those of its settlement or status change, and none is forgotten |
| `PaymentHistory.TakenOnItsWayBackIff` | src/modules/payments/payments.service.ts:183-210 | A report's payment ends both recorded as paid and asked back if and only if it had been asked back and now is exact |
| `PaymentHistory.RefundedThenTaken` | src/modules/payments/payments.service.ts:183-200 | A payment asked back for its amount confirms the order after all when the order is edited to that amount and the report is redelivered |
| `StatusLaws.ChangedIff` | src/modules/orders/orders.service.ts:700-746 | A status change succeeds if and only if a closed order keeps its status, the owner decides on money and on REFUNDED, and the provider accepts the refund if there is one to ask |
| `StatusLaws.ChangeWrites` | src/modules/orders/orders.service.ts:718-773 | It asks for the charge exactly when a PAID Stripe, MercadoPago or PayPal order with one moves to CANCELLED or REFUNDED from another status, and writes exactly these columns; links go off if the order closed while PAID |
| `StatusLaws.FreedIffCancelled` | src/modules/orders/orders.service.ts:758-768 | Each stock row and the coupon counter get back what the order took when it becomes CANCELLED, and at no other change |
| `StatusLaws.SweepCancelsOverdue` | src/queue/processors/stale-orders.processor.ts:10-47 | A sweep cancels online orders waiting unpaid for more than two hours, all of them when they are at most 500 and 500 of them otherwise, and leaves every other order as it is |
| `CheckoutLaws.PlacedIff` | src/modules/orders/orders.service.ts:113-200 | The exact requests that place an order: method, digital rules, listed products and variants, usable coupon, active shipping, stock for the sum of all lines |
| `CheckoutLaws.PlacedSells` | src/modules/orders/orders.service.ts:369-386 | A placed order has one line per wanted line, in order, at the price of the variant if one is named and of the product otherwise, with the product's rates; it takes exactly that stock and one coupon use |
| `CheckoutLaws.UsableIff` | src/modules/orders/orders.service.ts:394-410 | The check before pricing: the coupon exists, is on, is not past its last instant, and has a use left |
| `CheckoutLaws.RedeemedIffUseLeft` | src/modules/orders/orders.service.ts:476-484 | A coupon use is counted exactly if one is left at that moment, whatever was read before, so the counter never passes its limit |
| `EditOutcomes.MergedAddsUp` | src/modules/orders/orders.service.ts:850-861 | Merging keeps for each product and variant the sum of what is asked for it, and adds no other |
| `EditOutcomes.EditedLinesSourced` | src/modules/orders/orders.service.ts:877-897 | Every line after any edit goes on at its own price and rates, or is new and sold at the catalogue's price, the variant's if one is named |
| `EditOutcomes.EditLeavesTheRequest` | src/modules/orders/orders.service.ts:841-988 | After an edit of an unrepeated order it has one line for each requested product and variant, and no other, at the sum asked for it |
| `EditOutcomes.EditedIff` | src/modules/orders/orders.service.ts:786-830 | An edit succeeds if and only if the order is open, its payment status may be set so, lines and shipping are known, a card payment remains what the order totals, and stock suffices for all that lines grow by |
| `EditOutcomes.RefusedIffPaidTotalMoves` | src/modules/orders/orders.service.ts:808-819 | With the other refusals ruled out an edit of a well priced order is refused if and only if it is PAID by card and its new lines, coupon and shipping price to another total |
| `Settlement.ReplacedCheckoutIgnored` | src/modules/payments/payments.service.ts:360-445 | A PayPal payment that would confirm the order changes nothing once another checkout was opened |
| `Settlement.DeclineForgotten` | src/modules/payments/payments.service.ts:422-428 | A declined capture changes nothing on a paid order, and a payment that would have confirmed the order before it leaves the same state after it |
| `OrderLaws.DeliveredOnce` | src/modules/digital/digital.service.ts:87-92 | A delivery once made is kept on every continuation with the same files, one grant each |
| `OrderLaws.OneGrantPerFile` | src/modules/digital/digital.service.ts:78-84 | The files found for an order are those of its products, each as often as it is stored and no other, however often a product is listed |
| `OrderLaws.SettlementGrants` | src/modules/digital/digital.service.ts:77-109 | Whichever settlement first gives an order a delivery is one of that order, and makes one live, unused grant per file of its products |
| `OrderLaws.DeliveryHasItsFiles` | src/modules/digital/digital.service.ts:85-109 | Over every run each delivery was made by exactly such a step of its order and has one grant per file found for the order's products at that step, ever since |
| `Conservation.StockIsConserved` | src/modules/orders/orders.service.ts:448-501 | In a physical store that tracks inventory, from an empty order book and over every run: the list of stock rows is unchanged and each row plus what orders that are not cancelled hold of it equals what the shelf started with |
| `Conservation.CouponCounts` | src/modules/orders/orders.service.ts:476-484 | Over every run a coupon is counted exactly once per order carrying it that is not cancelled, never above its limit |
| `Conservation.GuardNeverBlocks` | src/modules/orders/orders.service.ts:762-767 | On those states the guard `usageCount > 0` holds whenever an order that is not cancelled gives its use back |
| `Conservation.SweepIsRun` | src/queue/processors/stale-orders.processor.ts:41-86 | A whole sweep is a run of single expirations, so every result over runs covers it |
| `Conservation.UntrackedStockStays` | src/modules/orders/orders.service.ts:759-768 | A store that does not track inventory never moves a stock row, over every run |
| `Stock.ReserveIffEnough` | src/modules/orders/orders.service.ts:448-466 | Reserving succeeds if and only if every named row exists and holds the sum of what all lines ask of it, repeated lines included |
| `Stock.ReserveTakes` | src/modules/orders/orders.service.ts:448-466 | Each row then loses exactly what was asked of it and no row appears or disappears |
| `Stock.ReleaseGives` | src/modules/orders/orders.service.ts:487-501 | Releasing adds exactly what the lines hold to rows that still exist |
| `Stock.ReleaseUndoesReserve` | src/modules/orders/orders.service.ts:487-501 | Releasing what was reserved restores the shelf |
| `TotalsHistory.TotalsAlwaysPriced` | src/modules/orders/orders.service.ts:841-931 | An order placed without a repeated line, or not edited in its lines and shipping: after any run its stored totals are the pricing of the lines it stores with its coupon's discount and its shipping option's cost, its line amounts those of their own price and rates, and the grand total at least shipping |
| `OrderTotals.CreatedPriced` | src/modules/orders/orders.service.ts:388-428 | Every order is placed with totals that are the pricing of its items, repeated or not, and with the cost of its shipping option |
| `OrderTotals.CreatedWellPriced` | src/modules/orders/orders.service.ts:369-386 | When the request repeats no product and variant, the order has no repeated lines either |
| `OrderTotals.EditWellPriced` | src/modules/orders/orders.service.ts:786-931 | Any edit of such an order leaves it so, whatever the catalogue says by then |
| `OrderTotals.EditKeepsShipping` | src/modules/orders/orders.service.ts:910-922 | Any edit leaves the charged shipping equal to the cost of the order's shipping option |
| `OrderTotals.RepricingIsFixedPoint` | src/modules/orders/orders.service.ts:809-821 | Saving an open order with a request for its own lines at their quantities, or with its own shipping chosen again at the same cost, succeeds and leaves the whole database as it was, whatever the catalogue holds by then |
| `OrderTotals.OwnLinesAsTheyAre` | src/modules/orders/orders.service.ts:850-861 | A request that lists an unrepeated order's lines, or names no lines, is such a request |
| `OrderTotals.QuantityEdit` | src/modules/orders/orders.service.ts:841-988 | After a quantity edit the lines are the old ones at the wanted quantities, the totals their pricing, each stock row moved by the difference, and nothing else changed |
| `OrderTotals.QuantityEditsResult` | src/modules/orders/orders.service.ts:841-988 | The same after any number of quantity edits in a row, for the last one's quantities |
| `OrderTotals.QuantityEditsForget` | src/modules/orders/orders.service.ts:841-988 | Two histories of quantity edits that end alike leave the same database, stock included |
| `OrderTotals.RepeatedLinesDrift` | src/modules/orders/orders.service.ts:847-861 | A concrete order with one product on two lines whose shipping edit prices two units and stores three |
| `EditingTotals.StoredMinusPriced` | src/modules/orders/orders.service.ts:934-988 | On every input what is stored exceeds what was priced by exactly the kept lines whose key comes again later |
| `EditingTotals.BilledIffUnrepeated` | src/modules/orders/orders.service.ts:847-861 | An edit prices the quantity it stores if and only if no line it keeps is repeated |
| `EditingTotals.EditKeepsUnrepeated` | src/modules/orders/orders.service.ts:934-988 | Distinct lines stay distinct through an edit |
| `EditingLaws.EditMovesTheDifference` | src/modules/orders/orders.service.ts:934-1016 | An edit moves each stock row by exactly the difference between what the order held and what it holds now |
| `EditingLaws.WorkBalances` | src/modules/orders/orders.service.ts:940-982 | While changes are written, what the lines hold plus what is to be given back equals what they held plus what is to be taken |
| `EditingLaws.MergedDistinct` | src/modules/orders/orders.service.ts:850-861 | Merging leaves no two wanted lines with one product and variant |
| `EditingLaws.Rewritten` | src/modules/orders/orders.service.ts:951-959 | A stored line some change aims at becomes that change's line, unless its quantity is unchanged, when it stays as stored |
| `EditingLaws.Untouched` | src/modules/orders/orders.service.ts:943-977 | A stored line no change aims at is left as it was |
| `Editing.EditFrame` | src/modules/orders/orders.service.ts:786-830 | An edit leaves other orders, coupons, catalogue, assets and settings alone, and on its own order the status, coupon and delivery |
| `Pricing.RoundHalfUp` | src/modules/orders/pricing.util.ts:55-58 | The result is within half of the exact quotient, a tie going up |
| `Pricing.CouponDiscount` | src/modules/orders/pricing.util.ts:46-52 | The discount lies between zero and the taxed total, for any coupon value |
| `Pricing.CouponDiscountNear` | src/modules/orders/pricing.util.ts:46-52 | A fixed coupon takes the lesser of its value and the taxed total; a percentage takes its exact share within half a cent, and the whole from 100 on |
| `Pricing.RatesRoundedApart` | src/modules/orders/pricing.util.ts:27-43 | Each rate of a line is rounded on its own, to the nearest cent, half up |
| `Pricing.LineTaxDrift` | src/modules/orders/pricing.util.ts:27-43 | A line's tax is within half a cent per tax rate of the exact rational tax |
| `Pricing.BasketTaxDrift` | src/modules/orders/orders.service.ts:388-428 | Total tax of every basket is within half a cent per applied tax line of the exact rational tax |
| `Pricing.LineTotalsSplit` | src/modules/orders/pricing.util.ts:27-43 | The line totals of a basket add up to its subtotal plus tax |
| `Pricing.BasketBounds` | src/modules/orders/orders.service.ts:388-428 | The subtotal is the sum of price times quantity, the discount the coupon's on goods and tax together, between zero and both; the grand total is the line totals minus discount plus shipping, at least shipping |
| `Pricing.CouponNeverInverts` | src/modules/orders/pricing.util.ts:46-52 | With one coupon a larger taxed total gets at least the discount of a smaller one and never costs less |
| `StripeSession.CreateCheckout` | src/modules/payments/adapters/stripe.adapter.ts:31-54 | The adapter's loop and pushes build the item lines, then shipping, then tax, then the one-off discount |
| `StripeSession.SessionListsItems` | src/modules/payments/adapters/stripe.adapter.ts:31-54 | Each order line is its own line of the session, at its quantity and its unit price in the gateway's minor unit |
| `StripeSession.SessionExtras` | src/modules/payments/adapters/stripe.adapter.ts:44-54 | After them come shipping and tax, and beside them the discount, each only if there is any, in the same unit |
| `StripeSession.SessionTotalsGrand` | src/modules/payments/adapters/stripe.adapter.ts:31-54 | For a two-decimal currency the session of an order whose totals are the pricing of its lines, repeated or not, totals exactly its grand total |
| `StripeSession.WebhookAcceptsSession` | src/modules/payments/payments.service.ts:183-200 | So a payment of that session passes the amount check and confirms the order |
| `StripeSession.SessionAcceptedEver` | src/modules/payments/payments.service.ts:183-200 | Over runs: a two-decimal Stripe order placed without a repeated line, or not edited in its lines and shipping, is confirmed by its session's payment at any moment it still waits for one |
| `StripeSession.ZeroDecimalTotalsIff` | src/modules/payments/currency.util.ts:22-25 | Without a minor unit the session totals the rounded grand total if and only if the rounding errors of its amounts together stay within half a unit |
| `StripeSession.HalfUnitsDisagree` | src/modules/payments/payments.service.ts:183-188 | A concrete order of two units at 0.50 whose session asks for 2 while the check expects 1 |
| `Tables.Database.ReserveStock` | src/modules/orders/orders.service.ts:448-466 | One conditional UPDATE per line: succeeds with the reserved shelf, or reports that some line updated no row |
| `Tables.Database.ReleaseStock` | src/modules/orders/orders.service.ts:487-501 | Adds each line back to its row, skipping deleted rows |
| `Tables.Database.Rollback` | src/common/interceptors/tenant-scope.interceptor.ts:49-59 | A request that throws ends its transaction with every table as it was when it began |
| `OrdersService.Service.PlaceOrder` | src/modules/orders/orders.service.ts:113-249 | Placing an order leaves the tables as the specification says, or exactly as they were when it throws |
| `OrdersService.Service.TryPlace` | src/modules/orders/orders.service.ts:113-249 | The request succeeds on the same inputs and writes the same tables as the specification, step by step |
| `OrdersService.Service.ChangeStatus` | src/modules/orders/orders.service.ts:710-778 | A status change leaves the tables as specified, or exactly as they were when it throws |
| `OrdersService.Service.TryChange` | src/modules/orders/orders.service.ts:710-778 | Claim first, then revocation, stock, coupon, and the provider last, together write the specified state |
| `OrdersService.Service.MergeLines` | src/modules/orders/orders.service.ts:850-861 | The merging loop computes the merged list |
| `OrdersService.Service.WriteLines` | src/modules/orders/orders.service.ts:940-977 | The loop over changes writes the specified lines and collects what to take and give back |
| `OrdersService.Service.DeleteLines` | src/modules/orders/orders.service.ts:979-982 | The loop over stored lines keeps exactly the wanted ones and collects the stock of the others |
| `OrdersService.Service.ApplyItemChanges` | src/modules/orders/orders.service.ts:934-988 | Lines and shelf after the loops are the specified ones, or the request throws |
| `OrdersService.Service.ReworkLines` | src/modules/orders/orders.service.ts:808-819 | Lines, totals and stock of an edit are worked out and written as specified, or the request throws |
| `OrdersService.Service.CorrectOrder` | src/modules/orders/orders.service.ts:786-830 | An edit leaves the tables as specified, or exactly as they were when it throws |
| `OrdersService.Service.TryCorrect` | src/modules/orders/orders.service.ts:786-830 | The edit succeeds on the same inputs and writes the same tables as the specification |
| `PaymentsService.Service.CreateDelivery` | src/modules/digital/digital.service.ts:77-109 | One grant per file is created in a loop, with its own placeholder token; nothing when no files are found or a delivery exists |
| `PaymentsService.Service.ClaimPaid` | src/modules/payments/payments.service.ts:197-210 | The conditional UPDATE on whatever row it finds: it confirms and delivers, or leaves the tables alone and says whether the payment goes back |
| `PaymentsService.Service.HandlePaid` | src/modules/payments/payments.service.ts:151-219 | Read, judge, claim and refund together leave the specified state |
| `PaymentsService.Service.MarkPayPalOrderLost` | src/modules/payments/payments.service.ts:572-585 | A refund or dispute found by its capture rewrites status and payment of the PayPal order as specified and revokes its links |
| `PaymentsService.Service.ConfirmManualPayment` | src/modules/payments/payments.service.ts:632-653 | Confirming a Zelle order succeeds and settles it exactly as specified; a paid one is left as it is |
| `PaymentsService.Service.PrepareDelivery` | src/modules/digital/digital.service.ts:131-178 | Every grant gets a fresh token, a new expiry, a zero count and is switched on, exactly when there is something to send |
| `PaymentsService.Service.RedeemLink` | src/modules/digital/digital.service.ts:262-290 | A click yields the file of its grant, counting it, exactly when the link is alive, not revoked and its order paid |
| `StaleOrders.Processor.ExpireOne` | src/queue/processors/stale-orders.processor.ts:44-80 | One stale order is cancelled and its stock and coupon use given back, exactly when it is still unpaid and pending |
| `StaleOrders.Processor.Process` | src/queue/processors/stale-orders.processor.ts:26-86 | The loop over the selected orders leaves the tables as the specified sweep |
| `AfterCommit.CalledInTurn` | src/prisma/after-commit.ts:15-34 | For every nesting of transactions: what is called is exactly the hooks whose own transaction commits, each once, at its end and in registration order, as far as the request gets; the failures of the awaited ones are logged in order, and each rejection outside a transaction is left to be logged later |
| `AfterCommit.EveryFailureLoggedOnce` | src/prisma/after-commit.ts:15-34 | However late the rejections outside any transaction are logged: every failure is logged exactly once except one that reaches the request, the awaited ones in order and the others anywhere among them, and no call, commit or rollback moves |
| `AfterCommit.RejectionsOvertake` | src/prisma/after-commit.ts:18 | Two hooks that reject outside any transaction may be logged in reverse, after a later commit |
| `AfterCommit.RunsExactlyWhenCommitted` | src/prisma/after-commit.ts:15-34 | So a hook is called exactly once per registration whose own transaction commits, and never for a rolled-back one |
| `AfterCommit.EscapesIff` | src/prisma/after-commit.ts:15-19 | A hook's error reaches the request if and only if it was registered outside any transaction and throws instead of rejecting |
| `AfterCommit.NeverBeforeItsCommit` | src/prisma/after-commit.ts:22-34 | A hook registered in one transaction never runs before that one commits |
| `AfterCommit.FailuresDoNotSpread` | src/prisma/after-commit.ts:25-32 | Which hooks fail, and how, changes only what is logged: the same hooks are called between the same commits and rollbacks as if all had ended well, as far as the request gets |
| `AfterCommit.UnguardedCallsAllIff` | src/prisma/after-commit.ts:25-32 | A loop without the try calls all hooks if and only if none but the last fails |
| `AfterCommit.Storage.WithAfterCommit` | src/prisma/after-commit.ts:22-34 | Runs the body with its own hook list, returns the transaction's own result, and after a commit runs the hooks in order, whatever they do |
| `AfterCommit.Storage.RunHooks` | src/prisma/after-commit.ts:25-32 | The loop calls every hook once, in order, logs each failure and goes on |
| `AfterCommit.Storage.AfterCommit` | src/prisma/after-commit.ts:15-19 | Inside a transaction the hook is queued; outside it is called at once, a rejection left to be logged when its promise settles and a throw passed on |
| `AfterCommit.Storage.Execute` | src/prisma/after-commit.ts:15-34 | A whole request leaves the queue and the trace the specification computes |
| `Billing.SwitchedStays` | src/modules/billing/billing.service.ts:211-247 | Once the bought subscription's paid checkout is in, whatever late payments and notices of others and portal changes are mixed in: the row's plan, customer and period end are those last heard, its renewal as last told, its subscription the bought one, by card |
| `Billing.PlanChangeConfluent` | src/modules/billing/billing.service.ts:172-237 | When its period end never moves back, any order and duplication of its deliveries ends on the plan and customer of the last one and the latest period end |
| `Billing.OrderDoesNotMatter` | src/modules/billing/billing.service.ts:206-237 | Two such histories that last hear the same end in the same row, wherever they began |
| `Billing.NoneLeftCharging` | src/modules/billing/billing.service.ts:211-237 | Over every history each subscription the row was ever on is still the row's, or Stripe was asked to cancel it or ended it itself |
| `Billing.OnlyReplacedCancelled` | src/modules/billing/billing.service.ts:211-237 | Only a subscription that was the row's and that this delivery took off it is cancelled |
| `Billing.EndedKeepsWhatWasPaid` | src/modules/billing/billing.service.ts:248-258 | When Stripe ends the row's subscription, plan, end date and customer stay, without card or renewal; an end of any other changes nothing |
| `Billing.LifetimeKeptIff` | src/modules/billing/billing.service.ts:186-196 | A lifetime purchase leaves a plan without end, card or subscription, with the customer Stripe knew, and survives its leftovers if and only if none is a paid-up charge |
| `Billing.LastCheckoutWins` | src/modules/billing/billing.service.ts:216-228 | Until a subscription ends, the row is on the one whose paid-up checkout arrived last, so a redelivered checkout of a replaced subscription switches it back while Stripe still has it paid up |
| `Billing.Service.ApplyStripeSubscription` | src/modules/billing/billing.service.ts:211-237 | Writes the specified row, and asks Stripe to cancel the subscription it replaced and no other |
| `Billing.Service.ActivateLifetime` | src/modules/billing/billing.service.ts:186-196 | Writes the specified lifetime row and asks Stripe to cancel the current subscription |
| `Billing.Service.Receive` | src/modules/billing/billing.service.ts:138-154 | Each webhook writes the specified row and cancels exactly the replaced subscription |
| `ScheduledPrices.PriceAfterAnyHistory` | src/modules/digital/digital.service.ts:424-473 | However late sweeps run or are skipped, after any run each price is that of the change with the greatest moment the last sweep reached, or the initial price if none |
| `ScheduledPrices.SweepCatchesUp` | src/modules/digital/digital.service.ts:453-473 | What one sweep copies over the old price is the price in effect at its moment, whatever sweeps were missed |
| `ScheduledPrices.InEffectIsGreatest` | src/modules/digital/digital.service.ts:453-463 | Of the rows in effect, the one with the greatest moment decides |
| `PricePlans.RowsAreWhatStands` | src/modules/digital/digital.service.ts:424-451 | The stored changes are exactly those scheduled for an existing product at a free future moment and not removed since, each with its own price and moment |
| `PricePlans.PriceFollowsSchedule` | src/modules/digital/digital.service.ts:424-473 | Over every history a product's price is that of the last change that stands and the latest sweep reached, or the price it had |
| `PricePlans.AppliedStays` | src/modules/digital/digital.service.ts:424-451 | Over every history a change the sweep has reached can no longer be removed |
| `PricePlans.SweepCounts` | src/modules/digital/digital.service.ts:453-473 | A sweep counts exactly the products that had a change due |
| `ScheduledPrices.Service.ApplyDuePrices` | src/modules/digital/digital.service.ts:453-473 | The two loops copy each product's newest due price, skip deleted products, mark every due row applied and count the products |
| `MobileTokens.OneLiveToken` | src/modules/auth/auth.service.ts:535-570 | Over every run a user's device has at most one unrevoked token, the last one issued for it |
| `MobileTokens.BurntForGood` | src/modules/auth/auth.service.ts:229-281 | A family without a live token never has one again on any continuation, and none of its tokens is ever exchanged |
| `MobileTokens.LeakBurnsFamily` | src/modules/auth/auth.service.ts:234-266 | Reuse, a device mismatch, a lost membership or a deactivated account leaves the whole family dead on every continuation |
| `MobileTokens.SecondUseBurnsFamily` | src/modules/auth/auth.service.ts:234-240 | A token is exchanged at most once: presented again, whatever happened since, it fails and its family is dead for good |
| `MobileTokens.ResetEndsEverySession` | src/modules/auth/auth.service.ts:394-405 | After a password reset or a change of second factor every family the user had is dead for good |
| `TokenLaws.LoginIssues` | src/modules/auth/auth.service.ts:535-570 | A login revokes the device's earlier tokens and leaves a live one with its user, tenant, role and end |
| `TokenLaws.RefreshAnsweredIff` | src/modules/auth/auth.service.ts:229-281 | A refresh is answered exactly for a live token in time on its own device, an active user and, with a tenant, a membership; the new token has the membership's role and a new end, and only the old one is revoked |
| `TokenLaws.IssuedIsAccepted` | src/modules/auth/auth.service.ts:229-281 | The token a login or an answered refresh leaves is accepted exactly if presented next on its device, by its end, by an active user who has the membership it needs |
| `TokenLaws.LiveUntilEnded` | src/modules/auth/auth.service.ts:229-281 | Over every continuation a live token stays live, and is accepted whenever presented in time by an active member on its device, until a login on the device, an end of the user's sessions, or a presentation of its family ends it |
| `TokenLaws.RefusalWrites` | src/modules/auth/auth.service.ts:241-250 | A refusal of a live token writes nothing if it is expired, and revokes this one only if the user is inactive |
| `MobileTokens.Service.Refresh` | src/modules/auth/auth.service.ts:229-281 | The rotation writes the specified rows and returns a new token exactly when the request is accepted |
| `MobileTokens.Service.IssueFresh` | src/modules/auth/auth.service.ts:535-548 | A login revokes the device's tokens and starts a new family |
| `Notices.NoticesAdvance` | src/modules/billing/subscription-lifecycle.service.ts:73-112 | Between two activations the notices mailed strictly advance D7, D1, D0, DOWNGRADED, whatever failed and was retried and wherever payments landed inside a sweep |
| `Notices.PaidLimitsUntilGraceEnds` | src/modules/plans/plans.service.ts:132-148 | Until the next activation, whether and whenever the sweep ran, paid limits are granted at a moment if and only if they would be with the row as it was: up to the end of grace |
| `Notices.NoPaidLimitsOnceDue` | src/modules/plans/subscription-lifecycle.util.ts:34-37 | From the instant the downgrade is due no paid limits are granted, whatever the job does |
| `Notices.PaymentDuringDowngrade` | src/modules/billing/subscription-lifecycle.service.ts:120-140 | A payment landing while a downgrade is in flight keeps its plan if and only if the downgrade fails before its write or there is no free plan |
| `Notices.DowngradeMailRetriedIffNoFreePlan` | src/modules/billing/subscription-lifecycle.service.ts:93-98 | After mailing failed on a downgraded row, the notice is mailed again only when no free plan exists: with one, no continuation mails it; without, the next sweep does |
| `Notices.HandledIsThreeSteps` | src/modules/billing/subscription-lifecycle.service.ts:73-112 | Handling a subscription undisturbed is the sweep's read, claim and finish with nothing in between |
| `NoticeLaws.DueInItsWindow` | src/modules/plans/subscription-lifecycle.util.ts:49-59 | D7 is due from 604 800 000 to 86 400 000 milliseconds before the end, D1 after that until the end, both only without renewal; D0 in the 604 800 000 after it, DOWNGRADED from then on |
| `NoticeLaws.LimitsEndAWeekLater` | src/modules/plans/subscription-lifecycle.util.ts:29-37 | Paid limits last until 604 800 000 milliseconds after the end of a paid plan, for good if it has none |
| `NoticeLaws.HandledMails` | src/modules/billing/subscription-lifecycle.service.ts:73-112 | A handled row mails the notice due, once, and only a downgrade writes more; a failure mails nothing and lets the notice come up again |
| `NoticeLaws.NewsWrites` | src/modules/plans/plans.service.ts:298-321 | An activation starts the period over with no notice sent; portal changes and an end at Stripe reach only the row on that subscription |
| `NoticeLaws.MailsFit` | src/modules/billing/subscription-lifecycle.service.ts:48-100 | Over every run each mailed notice was claimed in its own window, and a plan read as renewing is never reminded before its end |
| `Notices.LifecycleService.Handle` | src/modules/billing/subscription-lifecycle.service.ts:73-100 | Claims the notice, acts, and releases the claim on failure, leaving the specified row and mail |
| `Notices.LifecycleService.Downgrade` | src/modules/billing/subscription-lifecycle.service.ts:120-135 | Moves the row to the free plan, or without one only ends its card billing |
| `Notices.LifecycleService.ReleaseNotice` | src/modules/billing/subscription-lifecycle.service.ts:102-112 | The loop drops the notice from those sent and keeps the others in order |
| `Notices.LifecycleService.Sweep` | src/modules/billing/subscription-lifecycle.service.ts:48-71 | Every candidate is handled as specified whatever happens to the others, mails go out in row order and are counted |
| `Csv.CsvRoundTrip` | src/common/utils/csv.util.ts:17-21 | For all headers and rows with at least one column, a reader following section 2 of RFC 4180 that takes every line break for a separator gets back every field as shown |
| `Csv.CsvRoundTripIff` | src/common/utils/csv.util.ts:17-21 | A reader that also allows the optional last line break gets the same if and only if the last row is not a single empty field |
| `Csv.FieldReadsBack` | src/common/utils/csv.util.ts:6-15 | Whatever a field holds, reading what was written gives it back and stops at its end |
| `Csv.BareIffReadable` | src/common/utils/csv.util.ts:13-14 | A field is left unquoted if and only if it would be read back as it stands |
| `Csv.ShownAs` | src/common/utils/csv.util.ts:6-12 | Absent values show as nothing and printed ones as they are; a text gets an apostrophe exactly if it begins with one of = + - @ TAB CR and is no number |
| `Csv.QuotedIff` | src/common/utils/csv.util.ts:13-14 | A field is quoted exactly if it holds a quote, a comma, LF or CR |
| `Csv.ShownNeverRuns` | src/common/utils/csv.util.ts:9-12 | A text cell is shown as it is or behind one apostrophe, the latter exactly when it would run as a formula, and as shown it never does |

## Left out

- Race.RecordOrRefund: the order's total is not edited while handlers are in flight, PayPal looks a capture's order up and judges it in one read, and nothing is promised once a PayPal dispute was written; `Race.ChargeReplacedIff` says what a dispute undoes.
- Race.ChargeIsWriteOnce: for the same reason the recorded payment and the single invoice are promised up to a dispute.
- Conservation.StockIsConserved: stock quantities edited from the catalogue, deleted products and variants, and a change of the inventory setting are outside its runs; prices, rates and listings change freely.
- TotalsHistory.TotalsAlwaysPriced: coupons and shipping options whose amounts are edited meanwhile are outside its runs.
- Race.ReleasedExactlyOnce: the give-back is counted once per committed transaction; the quantities it writes are the serialised model's.
- PaymentsService.Service.HandlePaid: all three providers share it; an order only receives reports of its own provider, so one `charge` column stands for the three payment id columns, and looking up credentials is a `trusted` flag.
- OrdersService.Service.TryPlace: the customer's contact fields, addresses and rendered messages are not stored; whether a message channel is set up is one flag of the store.
- StaleOrders.Processor.Process: the sweep takes the oldest rows first; the processor leaves the order of a batch of 500 open.
- PaymentsService.Service.RedeemLink: a link is addressed by order, grant and token, since no two tokens are equal.
- Notices.NoticesAdvance: one sweep runs at a time, as the repeatable job is set up; releasing a notice is one step although the service reads the list before writing it.
- Billing.SwitchedStays: the store's own subscription row is read and written in one step per webhook.
- PricePlans.PriceFollowsSchedule: a price written directly on the product meanwhile is outside its runs.
- Billing.NoneLeftCharging: what Stripe answers to a cancellation is not modelled.
- MobileTokens.OneLiveToken: a refresh reads and writes in one step, so two simultaneous refreshes of one token are not modelled.
- `updateDetails`, manual confirmation and declined captures appear only as single steps; the runs of `Race` are without them.
- `updateDetails` may also change or clear the customer's email address, which decides whether links can be sent; the model never writes `Order.email`.
- Race.ClosingServesIffStale: whether the order has files is fixed from the start, and a resend that raises single links after a revocation is left to `RedeemRace`.
- Floating-point sums of two amounts in JavaScript are taken as exact.
- Calendar arithmetic of plan periods, plan requests and approvals: an activation carries its end date.
- Hiding products over a plan's limit, and per-store overrides of a plan's limits.
- The customers' own mobile token rotation, which is the same machine as the staff one.
- Re-queuing of unsent deliveries, notifications, invoice files, email texts, dashboards and exports other than their CSV text.
- Signatures, hashing, encryption, sessions on the web and row-level security.
- Subscription statuses other than active and pending: nothing writes them.
