/** What each settlement comes to, in the terms of the order, the report and the amounts alone. */
module SettlementLaws {
  import opened Base
  import opened Lifecycle
  import opened Domain
  import opened Settlement
  import opened DigitalDelivery
  import opened Frames

  /** The order still waits for a payment. */
  predicate Waiting(row: Row) {
    row.pay != Paid && row.status != Cancelled && row.status != Refunded
  }

  /** The report is this order's: its provider's, trusted, with an id, for the PayPal order it pays through. */
  predicate Genuine(o: Order, r: Report) {
    && r.how == o.row.how
    && match r.how
       case Stripe => r.trusted
       case MercadoPago => r.payment.Some?
       case PayPal => r.payment.Some? && r.reference.Some? && o.paypalOrder == r.reference
       case _ => false
  }

  /**
   * What the order owes, to the cent; in a currency without a minor unit, the number of units nearest
   * to it, a tie going up. MercadoPago always reports with two decimals.
   */
  predicate Exact(o: Order, r: Report) {
    && r.sameCurrency && o.totals.grand >= 0
    && if o.zeroDecimal && r.how != MercadoPago then -50 < 100 * r.amount - o.totals.grand <= 50
       else r.amount == o.totals.grand
  }

  function PaidRow(row: Row, payment: Option<Id>): Row {
    Row(row.how, Confirmed, Paid, if payment.Some? then payment else row.charge)
  }

  /** The refund a report brings about: a payment that is not, and will not be, the recorded one of an order kept. */
  function Returns(o: Order, r: Report): set<(Method, Id)> {
    if r.payment.None? || !Genuine(o, r) then {}
    else if || (o.row.pay == Paid && o.row.charge.Some? && o.row.charge != r.payment)
            || (o.row.pay != Paid && o.row.status == Cancelled)
            || (Waiting(o.row) && !Exact(o, r)) then {(o.row.how, r.payment.value)}
    else {}
  }

  /**
   * A report of the order's own pays a waiting order if and only if the currency is right and the
   * amount exact; then nothing is returned. Any other amount changes no order and goes back.
   */
  lemma {:induction false} PaysIffExact(db: Db, i: nat, r: Report, now: int)
    requires i < |db.orders| && Waiting(db.orders[i].row) && Genuine(db.orders[i], r)
    ensures var o, t := db.orders[i], Settle(db, i, r, now);
            && |t.orders| == |db.orders|
            && (Exact(o, r) <==> t.orders[i].row.pay == Paid)
            && (Exact(o, r) ==>
                  t.orders[i].row == PaidRow(o.row, r.payment) && t.orders[i].invoices == o.invoices + 1 && t.asked == db.asked)
            && (!Exact(o, r) ==>
                  t == db.(asked := db.asked + if r.payment.Some? then {(r.how, r.payment.value)} else {}))
  {
    var o := db.orders[i];
    var settled := db.(orders := db.orders[i := SettledOrder(o, r.payment)]);
    DeliverSame(settled, i, now);
    DeliverKeepsPaying(settled, i, now);
  }

  lemma {:induction false} DeliverKeepsPaying(db: Db, i: nat, now: int)
    requires i < |db.orders|
    ensures var t := Deliver(db, i, now);
            t.asked == db.asked && |t.orders| == |db.orders| && t.orders[i].invoices == db.orders[i].invoices
  {
  }

  /** Every other report leaves every table alone but for the refunds it asks for. */
  lemma {:induction false} OtherReportsOnlyReturn(db: Db, i: nat, r: Report, now: int)
    requires i < |db.orders| ==> !Waiting(db.orders[i].row) || !Genuine(db.orders[i], r)
    ensures Settle(db, i, r, now) ==
            db.(asked := db.asked + if i < |db.orders| then Returns(db.orders[i], r) else {})
  {
  }

  /** The refunds a report asks for, whatever it finds. */
  lemma {:induction false} SettleReturns(db: Db, i: nat, r: Report, now: int)
    ensures Settle(db, i, r, now).asked == db.asked + if i < |db.orders| then Returns(db.orders[i], r) else {}
  {
    if i < |db.orders| && Waiting(db.orders[i].row) && Genuine(db.orders[i], r) {
      PaysIffExact(db, i, r, now);
    } else {
      OtherReportsOnlyReturn(db, i, r, now);
    }
  }

  // ---- PayPal -----------------------------------------------------------------------------------------

  /** A decline of the order's own capture fails an unpaid order, and touches nothing else. */
  lemma {:induction false} DeclineFails(db: Db, i: nat, reference: Id)
    requires i < |db.orders|
    ensures var o := db.orders[i];
            var failed := o.(row := Row(o.row.how, o.row.status, Failed, o.row.charge));
            Decline(db, i, reference) == if o.paypalOrder == Some(reference) && o.row.pay == Unpaid
                                         then db.(orders := db.orders[i := failed]) else db
  {
  }

  /**
   * A checkout is refused exactly to orders that are not PayPal's, paid or closed. Once it is opened
   * the order's exact payment through it, and through no other, confirms the order.
   */
  lemma {:induction false} OpenedThenPaid(db: Db, i: nat, reference: Id, r: Report, now: int)
    requires i < |db.orders| && r.how == PayPal && r.payment.Some? && r.reference.Some? && Exact(db.orders[i], r)
    ensures OpenPayPal(db, i, reference).Some? <==> db.orders[i].row.how == PayPal && Waiting(db.orders[i].row)
    ensures OpenPayPal(db, i, reference).Some? ==>
              var t := Settle(OpenPayPal(db, i, reference).value, i, r, now);
              && |t.orders| == |db.orders|
              && t.orders[i].row == if r.reference.value == reference then PaidRow(db.orders[i].row, r.payment)
                                    else db.orders[i].row
  {
    if OpenPayPal(db, i, reference).Some? {
      var open := OpenPayPal(db, i, reference).value;
      if r.reference.value == reference {
        PaysIffExact(open, i, r, now);
      } else {
        OtherReportsOnlyReturn(open, i, r, now);
      }
    }
  }

  /** Money PayPal took back: what the row says of it, and no link that still works. */
  lemma {:induction false} LostShows(db: Db, i: nat, capture: Id, refunded: bool)
    requires i < |db.orders| && db.orders[i].row.how == PayPal && db.orders[i].row.charge == Some(capture)
    ensures var o, t := db.orders[i], Lose(db, i, capture, refunded);
            && |t.orders| == |db.orders| && t == db.(orders := db.orders[i := t.orders[i]])
            && t.orders[i].row ==
               (if refunded && o.row.pay == Paid then Row(PayPal, Refunded, Returned, Some(capture))
                else if !refunded && (o.row.pay == Paid || o.row.pay == Returned) then
                  Row(PayPal, o.row.status, Disputed, Some(capture))
                else o.row)
            && (o.delivery.Some? ==> t.orders[i].delivery.Some? && t.orders[i].delivery.value.status == Revoked)
  {
    RevokeSame(db.orders[i].(row := if refunded then LostToRefund(db.orders[i].row) else LostToDispute(db.orders[i].row)));
  }

  /** A reversal of anything but the order's recorded capture changes nothing. */
  lemma {:induction false} OthersLoseNothing(db: Db, i: nat, capture: Id, refunded: bool)
    requires i < |db.orders| ==> db.orders[i].row.how != PayPal || db.orders[i].row.charge != Some(capture)
    ensures Lose(db, i, capture, refunded) == db
  {
  }

  // ---- Zelle ------------------------------------------------------------------------------------------

  /**
   * A merchant can confirm an open Zelle order exactly when it is paid or its customer's evidence is
   * in, which can be given until it is paid and taken back at any time.
   */
  lemma {:induction false} ZelleConfirmedIffProven(db: Db, i: nat, given: bool, now: int)
    requires i < |db.orders| && db.orders[i].row.how == Zelle
    ensures var t := GiveProof(db, i, given);
            && (t.None? <==> given && db.orders[i].row.pay == Paid)
            && (t.Some? && Waiting(db.orders[i].row) ==> (ConfirmManual(t.value, i, now).Some? <==> given))
    ensures var o, t := db.orders[i], ConfirmManual(db, i, now);
            && (t.Some? <==> o.row.status != Cancelled && o.row.status != Refunded && (o.row.pay == Paid || o.proof))
            && (t.Some? ==>
                  && |t.value.orders| == |db.orders| && t.value.asked == db.asked
                  && if o.row.pay == Paid then t.value == db
                     else t.value.orders[i].row == Row(Zelle, Confirmed, Paid, o.row.charge))
  {
    var settled := db.(orders := db.orders[i := SettledOrder(db.orders[i], None)]);
    DeliverSame(settled, i, now);
    DeliverKeepsPaying(settled, i, now);
  }
}
