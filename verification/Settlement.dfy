/** Payments as the providers report them, Zelle payments as the merchant confirms them. */
module Settlement {
  import opened Base
  import opened Lifecycle
  import opened Domain
  import opened Currency
  import opened DigitalDelivery

  /**
   * A payment reported for an order. `trusted`: it comes from the account the store is set up with;
   * `reference`: the PayPal order it settles.
   */
  datatype Report = Report(how: Method, payment: Option<Id>, amount: nat, sameCurrency: bool, trusted: bool,
                           reference: Option<Id>)

  predicate Accepts(o: Order, r: Report) {
    && r.how == o.row.how && Gateway(r.how)
    && (r.how == Stripe ==> r.trusted)
    && (r.how == PayPal ==> r.reference.Some? && r.reference == o.paypalOrder)
    && (r.how != Stripe ==> r.payment.Some?)
  }

  /** MercadoPago amounts are always compared in cents. */
  predicate AmountOk(o: Order, r: Report) {
    && r.sameCurrency && o.totals.grand >= 0
    && r.amount == ToMinor(o.totals.grand, o.zeroDecimal && r.how != MercadoPago)
  }

  function SettledOrder(o: Order, payment: Option<Id>): Order {
    o.(row := Settled(o.row, payment), invoices := o.invoices + 1)
  }

  /**
   * The conditional UPDATE and what follows it, on the row it finds: that may not be the row that was
   * judged, and then the payment goes back unless the winner recorded this very one.
   */
  function ClaimOrLose(db: Db, i: nat, r: Report, now: int): Db
    requires i < |db.orders|
  {
    var found := db.orders[i];
    if Claimable(found.row) then Deliver(db.(orders := db.orders[i := SettledOrder(found, r.payment)]), i, now)
    else if r.payment.Some? && LoserGivesBack(found.row, r.payment) then
      db.(asked := db.asked + {(r.how, r.payment.value)})
    else db
  }

  function Settle(db: Db, i: nat, r: Report, now: int): Db {
    if i >= |db.orders| || !Accepts(db.orders[i], r) then db
    else
      var o := db.orders[i];
      match Judge(o.row, r.payment, AmountOk(o, r))
      case Ignore => db
      case GiveBack => if r.payment.Some? then db.(asked := db.asked + {(r.how, r.payment.value)}) else db
      case TryConfirm => ClaimOrLose(db, i, r, now)
  }

  /** A capture PayPal declined. */
  function Decline(db: Db, i: nat, reference: Id): Db {
    if i >= |db.orders| || db.orders[i].paypalOrder != Some(reference) || db.orders[i].row.pay != Unpaid then db
    else
      var o := db.orders[i];
      db.(orders := db.orders[i := o.(row := o.row.(pay := Failed))])
  }

  /** Opening another checkout replaces the order's PayPal order; a paid or closed order refuses. */
  function OpenPayPal(db: Db, i: nat, reference: Id): Option<Db> {
    if i >= |db.orders| then None
    else
      var o := db.orders[i];
      if o.row.how != PayPal || o.row.pay == Paid || Terminal(o.row.status) then None
      else Some(db.(orders := db.orders[i := o.(paypalOrder := Some(reference))]))
  }

  /** A refund or dispute on PayPal's side, found by the capture it reverses. */
  function Lose(db: Db, i: nat, capture: Id, refunded: bool): Db {
    if i >= |db.orders| || db.orders[i].row.how != PayPal || db.orders[i].row.charge != Some(capture) then db
    else
      var o := db.orders[i];
      var row := if refunded then LostToRefund(o.row) else LostToDispute(o.row);
      db.(orders := db.orders[i := Revoke(o.(row := row))])
  }

  /** The customer's Zelle evidence, or its rejection by the merchant. */
  function GiveProof(db: Db, i: nat, given: bool): Option<Db> {
    if i >= |db.orders| || db.orders[i].row.how != Zelle then None
    else if given && db.orders[i].row.pay == Paid then None
    else Some(db.(orders := db.orders[i := db.orders[i].(proof := given)]))
  }

  function ConfirmManual(db: Db, i: nat, now: int): Option<Db> {
    if i >= |db.orders| || db.orders[i].row.how != Zelle || Terminal(db.orders[i].row.status) then None
    else
      var o := db.orders[i];
      if o.row.pay == Paid then Some(db)
      else if !o.proof then None
      else Some(Deliver(db.(orders := db.orders[i := SettledOrder(o, None)]), i, now))
  }

  /**
   * Whatever row the UPDATE finds, the payment ends recorded on it or asked back, if and only if that
   * row is not a PayPal order closed, or paid another way, with no capture on record.
   */
  lemma {:induction false} ClaimKeepsTrackIff(db: Db, i: nat, r: Report, now: int)
    requires i < |db.orders| && r.how == db.orders[i].row.how && r.payment.Some?
    requires (r.how, r.payment.value) !in db.asked
    ensures var found, t := db.orders[i].row, ClaimOrLose(db, i, r, now);
            && i < |t.orders|
            && (t.orders[i].row.charge == r.payment || (r.how, r.payment.value) in t.asked
                <==> Claimable(found) || found.how != PayPal || found.charge.Some?)
  {
    if Claimable(db.orders[i].row) {
      var settled := db.(orders := db.orders[i := SettledOrder(db.orders[i], r.payment)]);
      assert Deliver(settled, i, now).orders[i].row == settled.orders[i].row;
    }
  }

  /**
   * A settled payment ends neither recorded nor asked back exactly when it is not the order's own, or
   * the order is REFUNDED and unpaid, or paid with no charge on record.
   */
  lemma {:induction false} SettleKeepsIff(db: Db, i: nat, r: Report, now: int)
    requires i < |db.orders| && r.how == db.orders[i].row.how && r.payment.Some?
    requires db.orders[i].row.charge != r.payment && (r.how, r.payment.value) !in db.asked
    ensures var o, t := db.orders[i], Settle(db, i, r, now);
            && i < |t.orders|
            && (t.orders[i].row.charge != r.payment && (r.how, r.payment.value) !in t.asked
                <==> !Accepts(o, r) || UnpaidRefunded(o.row) || (o.row.pay == Paid && o.row.charge == None))
  {
    if Accepts(db.orders[i], r) && Judge(db.orders[i].row, r.payment, AmountOk(db.orders[i], r)) == TryConfirm {
      ClaimKeepsTrackIff(db, i, r, now);
    }
  }

  /**
   * A PayPal payment the order would have been confirmed by changes nothing once the buyer has opened
   * another checkout: the order still waits, and the payment is neither recorded nor returned.
   */
  lemma {:induction false} ReplacedCheckoutIgnored(db: Db, i: nat, r: Report, reference: Id, now: int)
    requires i < |db.orders| && r.how == PayPal && Accepts(db.orders[i], r) && AmountOk(db.orders[i], r)
    requires Claimable(db.orders[i].row) && r.reference != Some(reference)
    requires db.orders[i].row.charge != r.payment && (r.how, r.payment.value) !in db.asked
    ensures Settle(db, i, r, now).orders[i].row == Settled(db.orders[i].row, r.payment)
    ensures OpenPayPal(db, i, reference).Some?
    ensures var t := OpenPayPal(db, i, reference).value;
            Settle(t, i, r, now) == t && t.orders[i].row == db.orders[i].row && t.asked == db.asked
  {
  }

  /** A declined capture leaves no trace: a paid order ignores it, and a payment that would have confirmed still does. */
  lemma {:induction false} DeclineForgotten(db: Db, i: nat, reference: Id, r: Report, now: int)
    requires i < |db.orders| && Accepts(db.orders[i], r)
    ensures db.orders[i].row.pay == Paid ==> Decline(db, i, reference) == db
    ensures Judge(db.orders[i].row, r.payment, AmountOk(db.orders[i], r)) == TryConfirm ==>
              Settle(Decline(db, i, reference), i, r, now) == Settle(db, i, r, now)
  {
    var o, t := db.orders[i], Decline(db, i, reference);
    if t != db && Judge(o.row, r.payment, AmountOk(o, r)) == TryConfirm {
      assert SettledOrder(t.orders[i], r.payment) == SettledOrder(o, r.payment);
      assert t.orders[i := SettledOrder(o, r.payment)] == db.orders[i := SettledOrder(o, r.payment)];
    }
  }
}
