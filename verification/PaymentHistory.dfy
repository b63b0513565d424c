/** The money of Stripe and MercadoPago orders over whole runs: what was paid, and what went back. */
module PaymentHistory {
  import opened Base
  import opened Lifecycle
  import opened Domain
  import opened Editing
  import opened DigitalDelivery
  import opened OrderStatus
  import opened Settlement
  import opened History
  import opened Frames
  import opened SettlementLaws
  import opened StatusLaws

  predicate Card(o: Order) {
    o.row.how == Stripe || o.row.how == MercadoPago
  }

  /** A closed order keeps no payment, and only a closed one says that its payment was returned. */
  predicate Sound(o: Order) {
    Card(o) ==> (Closed(o.row.status) ==> o.row.pay != Paid) && (o.row.pay == Returned ==> Closed(o.row.status))
  }

  /** Paid, or closed for good. */
  predicate Fixed(o: Order) {
    o.row.pay == Paid || Closed(o.row.status)
  }

  /** The report that pays the order, for exactly what it owes. */
  predicate PaidBy(o: Order, p: Order, r: Request, i: nat) {
    && r.ReportPayment? && r.order == i && Waiting(o.row) && Genuine(o, r.report) && Exact(o, r.report)
    && p.totals == o.totals && (r.report.payment.Some? ==> p.row.charge == r.report.payment)
  }

  predicate AskedBack(o: Order, asked: set<(Method, Id)>) {
    o.row.charge.Some? ==> (o.row.how, o.row.charge.value) in asked
  }

  /** One step of a card order. */
  ghost predicate CardStep(o: Order, p: Order, asked: set<(Method, Id)>, r: Request, i: nat) {
    && p.row.how == o.row.how && p.zeroDecimal == o.zeroDecimal && Sound(p)
    && (Card(o) ==>
          && (Fixed(o) ==> Fixed(p) && p.totals.grand == o.totals.grand && p.row.charge == o.row.charge)
          && (p.row.pay == Paid && o.row.pay != Paid ==> PaidBy(o, p, r, i))
          && (o.row.pay == Returned ==> p.row.pay == Returned)
          && (p.row.pay == Returned && o.row.pay != Returned ==> AskedBack(p, asked)))
  }

  lemma {:induction false} StatusSteps(db: Db, r: Request, i: nat)
    requires r.ChangeStatus? && i < |db.orders| && Sound(db.orders[i])
    ensures var t := Handle(db, r);
            && i < |t.orders| && db.asked <= t.asked && CardStep(db.orders[i], t.orders[i], t.asked, r, i)
  {
    if UpdateStatus(db, r.order, r.target, r.canRefund, r.accepted).Some? {
      ChangeWrites(db, r.order, r.target, r.canRefund, r.accepted);
      ChangedIff(db, r.order, r.target, r.canRefund, r.accepted);
    }
  }

  lemma {:induction false} EditedTotal(db: Db, i: nat, e: Edit)
    requires UpdateDetails(db, i, e).Some? && Card(db.orders[i])
    ensures var o, p := db.orders[i], UpdateDetails(db, i, e).value.orders[i];
            p.row == o.row && (o.row.pay == Paid ==> p.totals.grand == o.totals.grand)
  {
    EditFrame(db, i, e);
  }

  lemma {:induction false} EditSteps(db: Db, r: Request, i: nat)
    requires r.CorrectOrder? && i < |db.orders| && Sound(db.orders[i])
    ensures var t := Handle(db, r);
            && i < |t.orders| && db.asked <= t.asked && CardStep(db.orders[i], t.orders[i], t.asked, r, i)
  {
    if UpdateDetails(db, r.order, r.edit).Some? {
      EditFrame(db, r.order, r.edit);
      if r.order == i && Card(db.orders[i]) {
        EditedTotal(db, i, r.edit);
      }
    }
  }

  lemma {:induction false} SettleTouchesOne(db: Db, i: nat, r: Report, now: int, j: nat)
    requires j < |db.orders| && j != i
    ensures var t := Settle(db, i, r, now); j < |t.orders| && t.orders[j] == db.orders[j]
  {
    SettleEither(db, i, r, now);
    if i < |db.orders| {
      DeliverSame(db.(orders := db.orders[i := SettledOrder(db.orders[i], r.payment)]), i, now);
    }
  }

  lemma {:induction false} OwnReportSteps(db: Db, r: Request, i: nat)
    requires r.ReportPayment? && r.order == i
    requires i < |db.orders| && Sound(db.orders[i])
    ensures var t := Handle(db, r);
            && i < |t.orders| && db.asked <= t.asked && CardStep(db.orders[i], t.orders[i], t.asked, r, i)
  {
    if Waiting(db.orders[i].row) && Genuine(db.orders[i], r.report) {
      SettleAside(db, i, r.report, r.now);
      PaysIffExact(db, i, r.report, r.now);
    } else {
      OtherReportsOnlyReturn(db, i, r.report, r.now);
    }
  }

  lemma {:induction false} SettleSteps(db: Db, r: Request, i: nat)
    requires r.ReportPayment?
    requires i < |db.orders| && Sound(db.orders[i])
    ensures var t := Handle(db, r);
            && i < |t.orders| && db.asked <= t.asked && CardStep(db.orders[i], t.orders[i], t.asked, r, i)
  {
    if r.order == i {
      OwnReportSteps(db, r, i);
    } else {
      SettleReturns(db, r.order, r.report, r.now);
      SettleTouchesOne(db, r.order, r.report, r.now, i);
    }
  }

  /** Where nothing about the payment or the amounts is written, a card order only stays as it was. */
  lemma {:induction false} AsideSteps(o: Order, p: Order, asked: set<(Method, Id)>, r: Request, i: nat)
    requires Sound(o) && SameSale(o, p) && p.row == o.row
    ensures CardStep(o, p, asked, r, i)
  {
  }

  lemma {:induction false} DeclineSteps(db: Db, r: Request, i: nat)
    requires r.DeclinePayPal?
    requires i < |db.orders| && Sound(db.orders[i])
    ensures var t := Handle(db, r);
            && i < |t.orders| && db.asked <= t.asked && CardStep(db.orders[i], t.orders[i], t.asked, r, i)
  {
    if r.order < |db.orders| {
      DeclineFails(db, r.order, r.reference);
    }
  }

  lemma {:induction false} CheckoutSteps(db: Db, r: Request, i: nat)
    requires r.StartPayPal?
    requires i < |db.orders| && Sound(db.orders[i])
    ensures var t := Handle(db, r);
            && i < |t.orders| && db.asked <= t.asked && CardStep(db.orders[i], t.orders[i], t.asked, r, i)
  {
    AsideSteps(db.orders[i], Handle(db, r).orders[i], Handle(db, r).asked, r, i);
  }

  lemma {:induction false} ProofSteps(db: Db, r: Request, i: nat)
    requires r.SendProof?
    requires i < |db.orders| && Sound(db.orders[i])
    ensures var t := Handle(db, r);
            && i < |t.orders| && db.asked <= t.asked && CardStep(db.orders[i], t.orders[i], t.asked, r, i)
  {
    AsideSteps(db.orders[i], Handle(db, r).orders[i], Handle(db, r).asked, r, i);
  }

  lemma {:induction false} LoseSteps(db: Db, r: Request, i: nat)
    requires r.LosePayPal?
    requires i < |db.orders| && Sound(db.orders[i])
    ensures var t := Handle(db, r);
            && i < |t.orders| && db.asked <= t.asked && CardStep(db.orders[i], t.orders[i], t.asked, r, i)
  {
    if Handle(db, r) != db {
      LostShows(db, r.order, r.capture, r.refunded);
    }
  }

  lemma {:induction false} ZelleSteps(db: Db, r: Request, i: nat)
    requires r.ConfirmZelle?
    requires i < |db.orders| && Sound(db.orders[i])
    ensures var t := Handle(db, r);
            && i < |t.orders| && db.asked <= t.asked && CardStep(db.orders[i], t.orders[i], t.asked, r, i)
  {
    if r.order < |db.orders| {
      var settled := db.(orders := db.orders[r.order := SettledOrder(db.orders[r.order], None)]);
      DeliverSame(settled, r.order, r.now);
    }
  }

  lemma {:induction false} MailSteps(db: Db, r: Request, i: nat)
    requires r.PrepareEmail?
    requires i < |db.orders| && Sound(db.orders[i])
    ensures var t := Handle(db, r);
            && i < |t.orders| && db.asked <= t.asked && CardStep(db.orders[i], t.orders[i], t.asked, r, i)
  {
    AsideSteps(db.orders[i], Handle(db, r).orders[i], Handle(db, r).asked, r, i);
  }

  lemma {:induction false} MailedSame(o: Order, sent: bool)
    ensures SameSale(o, Mailed(o, sent)) && Mailed(o, sent).row == o.row
  {
  }

  lemma {:induction false} MailedSteps(db: Db, r: Request, i: nat)
    requires r.EmailDone?
    requires i < |db.orders| && Sound(db.orders[i])
    ensures var t := Handle(db, r);
            && i < |t.orders| && db.asked <= t.asked && CardStep(db.orders[i], t.orders[i], t.asked, r, i)
  {
    if r.order < |db.orders| {
      MailedSame(db.orders[r.order], r.sent);
    }
    AsideSteps(db.orders[i], Handle(db, r).orders[i], Handle(db, r).asked, r, i);
  }

  lemma {:induction false} ClickSteps(db: Db, r: Request, i: nat)
    requires r.ClickLink?
    requires i < |db.orders| && Sound(db.orders[i])
    ensures var t := Handle(db, r);
            && i < |t.orders| && db.asked <= t.asked && CardStep(db.orders[i], t.orders[i], t.asked, r, i)
  {
    AsideSteps(db.orders[i], Handle(db, r).orders[i], Handle(db, r).asked, r, i);
  }

  lemma {:induction false} PlaceSteps(db: Db, r: Request, i: nat)
    requires r.PlaceOrder? || r.ExpireOrder? || r.ChangeCatalogue?
    requires i < |db.orders| && Sound(db.orders[i])
    ensures var t := Handle(db, r);
            && i < |t.orders| && db.asked <= t.asked && CardStep(db.orders[i], t.orders[i], t.asked, r, i)
  {
  }

  lemma {:induction false} StepSteps(db: Db, r: Request, i: nat)
    requires i < |db.orders| && Sound(db.orders[i])
    ensures var t := Handle(db, r);
            && i < |t.orders| && db.asked <= t.asked && CardStep(db.orders[i], t.orders[i], t.asked, r, i)
  {
    match r
    case ChangeStatus(_, _, _, _) => StatusSteps(db, r, i);
    case CorrectOrder(_, _) => EditSteps(db, r, i);
    case ReportPayment(_, _, _) => SettleSteps(db, r, i);
    case DeclinePayPal(_, _) => DeclineSteps(db, r, i);
    case StartPayPal(_, _) => CheckoutSteps(db, r, i);
    case SendProof(_, _) => ProofSteps(db, r, i);
    case LosePayPal(_, _, _) => LoseSteps(db, r, i);
    case ConfirmZelle(_, _) => ZelleSteps(db, r, i);
    case PrepareEmail(_, _, _) => MailSteps(db, r, i);
    case EmailDone(_, _) => MailedSteps(db, r, i);
    case ClickLink(_, _, _, _) => ClickSteps(db, r, i);
    case PlaceOrder(_, _, _) => PlaceSteps(db, r, i);
    case ExpireOrder(_) => PlaceSteps(db, r, i);
    case ChangeCatalogue(_) => PlaceSteps(db, r, i);
  }

  /** New orders begin unpaid and open. */
  lemma {:induction false} NewOrdersUnpaid(db: Db, r: Request, i: nat)
    requires |db.orders| <= i < |Handle(db, r).orders|
    ensures var row := Handle(db, r).orders[i].row; row.pay == Unpaid && !Closed(row.status) && row.charge == None
  {
    if r.CorrectOrder? {
      if UpdateDetails(db, r.order, r.edit).Some? {
        EditFrame(db, r.order, r.edit);
      }
    } else if NeverMoves(r) {
      StepAside(db, r);
    }
  }

  // ---- Results over every run -------------------------------------------------------------------------

  /** Which report paid the order, and for what it still owes. */
  ghost predicate PaidAt(db: Db, requests: seq<Request>, i: nat, n: nat, o: Order) {
    && n < |requests| && requests[n].ReportPayment? && requests[n].order == i
    && var s, r := Run(db, requests[..n]), requests[n].report;
    && i < |s.orders| && Waiting(s.orders[i].row) && Genuine(s.orders[i], r)
    && Exact(o, r) && (r.payment.Some? ==> o.row.charge == r.payment)
  }

  /**
   * A card order that is PAID was paid by one report of its own, and that report's amount is exactly
   * what the order totals now, whatever was edited before and after.
   */
  lemma {:induction false} PaidInFull(db: Db, requests: seq<Request>, i: nat)
    requires db.orders == [] && i < |Run(db, requests).orders|
    ensures var o := Run(db, requests).orders[i];
            Sound(o) && (Card(o) && o.row.pay == Paid ==> exists n: nat :: PaidAt(db, requests, i, n, o))
  {
    if requests != [] {
      var n := |requests| - 1;
      var init, last := requests[..n], requests[n];
      var s, t := Run(db, init), Run(db, requests);
      RunSnoc(db, requests);
      if |s.orders| <= i {
        NewOrdersUnpaid(s, last, i);
      } else {
        PaidInFull(db, init, i);
        StepSteps(s, last, i);
        var o, p := s.orders[i], t.orders[i];
        if Card(p) && p.row.pay == Paid && o.row.pay == Paid {
          var m: nat :| PaidAt(db, init, i, m, o);
          assert requests[..m] == init[..m];
          assert PaidAt(db, requests, i, m, p);
        } else if Card(p) && p.row.pay == Paid {
          assert PaidAt(db, requests, i, n, p);
        }
      }
    }
  }

  lemma {:induction false} RunSound(db: Db, requests: seq<Request>, i: nat)
    requires i < |db.orders| && Sound(db.orders[i])
    ensures var t := Run(db, requests);
            && i < |t.orders| && Sound(t.orders[i]) && t.orders[i].row.how == db.orders[i].row.how
            && (Card(db.orders[i]) && Fixed(db.orders[i]) ==>
                  Fixed(t.orders[i]) && t.orders[i].totals.grand == db.orders[i].totals.grand
                  && t.orders[i].row.charge == db.orders[i].row.charge)
    decreases |requests|
  {
    if requests != [] {
      StepSteps(db, requests[0], i);
      RunSound(Handle(db, requests[0]), requests[1..], i);
    }
  }

  /** Once a card order is PAID its grand total and recorded charge never change, on any continuation. */
  lemma {:induction false} PaidTotalIsFinal(db: Db, before: seq<Request>, after: seq<Request>, i: nat)
    requires db.orders == [] && i < |Run(db, before).orders|
    requires Card(Run(db, before).orders[i]) && Run(db, before).orders[i].row.pay == Paid
    ensures var s, t := Run(db, before), Run(Run(db, before), after);
            && i < |t.orders| && t.orders[i].totals.grand == s.orders[i].totals.grand
            && t.orders[i].row.charge == s.orders[i].row.charge
  {
    PaidInFull(db, before, i);
    RunSound(Run(db, before), after, i);
  }

  /** A card order that says its payment was returned has had its recorded charge asked back. */
  lemma {:induction false} ReturnedWasAsked(db: Db, requests: seq<Request>, i: nat)
    requires db.orders == [] && i < |Run(db, requests).orders|
    ensures var t := Run(db, requests);
            Card(t.orders[i]) && t.orders[i].row.pay == Returned ==>
              Closed(t.orders[i].row.status) && AskedBack(t.orders[i], t.asked)
  {
    PaidInFull(db, requests, i);
    if requests != [] {
      var n := |requests| - 1;
      var s := Run(db, requests[..n]);
      RunSnoc(db, requests);
      if |s.orders| <= i {
        NewOrdersUnpaid(s, requests[n], i);
      } else {
        PaidInFull(db, requests[..n], i);
        ReturnedWasAsked(db, requests[..n], i);
        StepSteps(s, requests[n], i);
      }
    }
  }

  // ---- Every refund has its cause ---------------------------------------------------------------------

  /** The refunds a request asks for: those of a settlement, or of a status change that goes through. */
  function Due(db: Db, r: Request): set<(Method, Id)> {
    match r
    case ReportPayment(i, report, _) => if i < |db.orders| then Returns(db.orders[i], report) else {}
    case ChangeStatus(i, target, canRefund, accepted) =>
      if UpdateStatus(db, i, target, canRefund, accepted).Some? then Refund(db.orders[i].row, target) else {}
    case _ => {}
  }

  /** Nothing else asks a provider for a refund, and nothing forgets one. */
  lemma {:induction false} AskedExactly(db: Db, r: Request)
    ensures Handle(db, r).asked == db.asked + Due(db, r)
  {
    match r
    case ReportPayment(i, report, now) => SettleReturns(db, i, report, now);
    case ChangeStatus(i, target, canRefund, accepted) =>
      if UpdateStatus(db, i, target, canRefund, accepted).Some? {
        ChangeWrites(db, i, target, canRefund, accepted);
      }
    case CorrectOrder(i, e) =>
      if UpdateDetails(db, i, e).Some? {
        EditFrame(db, i, e);
      }
    case ConfirmZelle(i, now) =>
      if i < |db.orders| {
        DeliverSame(db.(orders := db.orders[i := SettledOrder(db.orders[i], None)]), i, now);
      }
    case _ =>
  }

  // ---- A refunded payment that is taken after all -----------------------------------------------------

  /** A report's payment ends recorded as paid and asked back exactly when it confirms the order after it was asked back. */
  lemma {:induction false} TakenOnItsWayBackIff(db: Db, i: nat, r: Report, now: int)
    requires i < |db.orders| && Waiting(db.orders[i].row) && Genuine(db.orders[i], r) && r.payment.Some?
    ensures var t := Settle(db, i, r, now);
            && |t.orders| == |db.orders|
            && (t.orders[i].row.pay == Paid && t.orders[i].row.charge == r.payment && (r.how, r.payment.value) in t.asked
                <==> Exact(db.orders[i], r) && (r.how, r.payment.value) in db.asked)
  {
    PaysIffExact(db, i, r, now);
  }

  /**
   * A payment of the wrong amount is asked back; when the order is then edited to that very amount, a
   * redelivery of the report confirms it with the payment that is on its way back.
   */
  lemma {:induction false} RefundedThenTaken(db: Db, i: nat, r: Report, now: int, e: Edit, later: int)
    requires i < |db.orders| && Waiting(db.orders[i].row) && Genuine(db.orders[i], r) && r.payment.Some?
    requires !Exact(db.orders[i], r) && e.paid == None
    requires var t := UpdateDetails(Settle(db, i, r, now), i, e);
             t.Some? && i < |t.value.orders| && Exact(t.value.orders[i], r)
    ensures var u := Settle(UpdateDetails(Settle(db, i, r, now), i, e).value, i, r, later);
            && i < |u.orders| && u.orders[i].row.pay == Paid && u.orders[i].row.charge == r.payment
            && (r.how, r.payment.value) in u.asked
  {
    PaysIffExact(db, i, r, now);
    EditFrame(Settle(db, i, r, now), i, e);
    PaysIffExact(UpdateDetails(Settle(db, i, r, now), i, e).value, i, r, later);
  }
}
