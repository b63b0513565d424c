/**
 * The rules that move one order row's status, payment status and recorded charge. Each is stated on
 * the row as the handler read it and on the row its conditional UPDATE finds, which differ when
 * handlers race.
 */
module Lifecycle {
  import opened Base

  datatype Status = Pending | Confirmed | Processing | Completed | Cancelled | Refunded

  datatype Payment = Unpaid | Paid | Failed | Returned | Disputed

  datatype Method = Whatsapp | Telegram | Stripe | MercadoPago | Zelle | PayPal

  /** `charge` is the payment id recorded for the order's own provider. */
  datatype Row = Row(how: Method, status: Status, pay: Payment, charge: Option<Id>)

  predicate Terminal(s: Status) {
    s == Cancelled || s == Refunded
  }

  predicate Gateway(how: Method) {
    how == Stripe || how == MercadoPago || how == PayPal
  }

  /** Whether moving the row that was read to `target` gives the buyer's money back. */
  predicate ReturnsMoney(seen: Row, target: Status) {
    seen.pay == Paid && (target == Refunded || (target == Cancelled && Gateway(seen.how)))
  }

  predicate MayMove(seen: Row, target: Status) {
    Terminal(seen.status) ==> target == seen.status
  }

  /** The UPDATE of a status change: decided on the row that was read, applied to the row it finds. */
  function Moved(seen: Row, found: Row, target: Status): Row {
    found.(status := target, pay := if ReturnsMoney(seen, target) then Returned else found.pay)
  }

  /** Only a cancellation gives back stock and the coupon use; a refund does not. */
  predicate GivesBack(seen: Row, target: Status) {
    target == Cancelled && seen.status != Cancelled
  }

  /** The provider is asked for a refund when the status really changes and a charge is on record. */
  function RefundOnMove(seen: Row, target: Status): Option<Id> {
    if ReturnsMoney(seen, target) && seen.status != target && Gateway(seen.how) then seen.charge else None
  }

  // ---- A payment confirmed by a provider -----------------------------------------------------

  datatype Verdict = Ignore | GiveBack | TryConfirm

  /** What a settlement does with a payment for the row it read. A Stripe session may carry no payment id. */
  function Judge(seen: Row, payment: Option<Id>, amountOk: bool): Verdict {
    if seen.pay == Paid then
      if payment.Some? && seen.charge.Some? && payment != seen.charge then GiveBack else Ignore
    else if Terminal(seen.status) then
      if seen.status == Cancelled then GiveBack else Ignore
    else if !amountOk then GiveBack
    else TryConfirm
  }

  /** Labelled REFUNDED while no payment counts as received. */
  predicate UnpaidRefunded(row: Row) {
    row.status == Refunded && row.pay != Paid
  }

  predicate Claimable(found: Row) {
    found.pay != Paid && !Terminal(found.status)
  }

  function Settled(found: Row, payment: Option<Id>): Row {
    found.(pay := Paid, status := Confirmed, charge := if payment.Some? then payment else found.charge)
  }

  /** The claim updated no row: does the payment go back, given the row that won? */
  predicate LoserGivesBack(winner: Row, payment: Option<Id>) {
    if winner.how == PayPal then winner.charge.Some? && winner.charge != payment
    else payment.Some? && winner.charge != payment
  }

  // ---- The stale-order sweep -----------------------------------------------------------------

  predicate Abandoned(found: Row) {
    found.status == Pending && found.pay == Unpaid
  }

  function Expired(found: Row): Row {
    found.(status := Cancelled)
  }

  // ---- A refund or dispute on PayPal's side --------------------------------------------------

  function LostToRefund(found: Row): Row {
    if found.pay == Paid then found.(pay := Returned, status := Refunded) else found
  }

  function LostToDispute(found: Row): Row {
    if found.pay == Paid || found.pay == Returned then found.(pay := Disputed) else found
  }
}
