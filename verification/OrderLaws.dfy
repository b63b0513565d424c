/** What every run keeps about each order: its status, payment status and delivery read together. */
module OrderLaws {
  import opened Base
  import opened Lifecycle
  import opened Domain
  import opened Checkout
  import opened Editing
  import opened DigitalDelivery
  import opened OrderStatus
  import opened Settlement
  import opened History
  import opened Frames

  predicate Off(d: Delivery) {
    d.status == Revoked && forall k :: 0 <= k < |d.grants| ==> d.grants[k].revoked
  }

  /** Links never outlive the sale, cancelled PayPal money is never still kept, one invoice per card order. */
  ghost predicate OrderOk(o: Order) {
    && (o.row.how == PayPal && o.row.status == Cancelled ==> o.row.pay != Paid)
    && (o.row.status == Refunded ==> o.row.pay != Paid)
    && (Terminal(o.row.status) && o.row.pay == Paid && o.delivery.Some? ==> o.delivery.value.status == Revoked)
    && (o.delivery.Some? && o.delivery.value.status == Revoked ==> Off(o.delivery.value))
    && (CardOrder(o.row.how) ==> o.invoices <= 1 && (Claimable(o.row) ==> o.invoices == 0))
  }

  ghost predicate AllOk(orders: seq<Order>) {
    forall o :: o in orders ==> OrderOk(o)
  }

  ghost predicate SameFiles(a: Delivery, b: Delivery) {
    |a.grants| == |b.grants| && forall k :: 0 <= k < |a.grants| ==> a.grants[k].asset == b.grants[k].asset
  }

  /** How one order may change in one step. */
  ghost predicate Evolves(o: Order, p: Order) {
    && p.row.how == o.row.how && p.coupon == o.coupon && p.createdAt == o.createdAt
    && (Terminal(o.row.status) ==> p.row.status == o.row.status)
    && (o.delivery.Some? ==> p.delivery.Some? && SameFiles(o.delivery.value, p.delivery.value))
    && (o.delivery.Some? && o.delivery.value.status == Revoked ==> p.delivery == o.delivery)
  }

  lemma {:induction false} EvolvesTransitive(o: Order, p: Order, q: Order)
    requires Evolves(o, p) && Evolves(p, q)
    ensures Evolves(o, q)
  {
  }

  /** A step that rewrites at most order i, keeping it in order. */
  ghost predicate Touches(db: Db, t: Db, i: nat) {
    && |t.orders| == |db.orders|
    && (forall j :: 0 <= j < |db.orders| && j != i ==> t.orders[j] == db.orders[j])
    && (i < |db.orders| ==> OrderOk(t.orders[i]) && Evolves(db.orders[i], t.orders[i]))
  }

  lemma {:induction false} RevokeOk(o: Order)
    requires OrderOk(o)
    ensures Evolves(o, Revoke(o)) && OrderOk(Revoke(o)) && Revoke(o).row == o.row
    ensures o.delivery.Some? ==> Off(Revoke(o).delivery.value)
  {
  }

  lemma {:induction false} DeliverOk(db: Db, i: nat, now: int)
    requires i < |db.orders| && OrderOk(db.orders[i])
    requires !Terminal(db.orders[i].row.status)
    ensures Touches(db, Deliver(db, i, now), i)
  {
    var o := db.orders[i];
    if Deliver(db, i, now) != db {
      assert o.delivery.None? && Deliver(db, i, now).orders[i] == o.(delivery := Deliver(db, i, now).orders[i].delivery);
    }
  }

  lemma {:induction false} StatusOk(db: Db, i: nat, target: Status, canRefund: bool, accepted: bool)
    requires AllOk(db.orders)
    ensures Touches(db, UpdateStatus(db, i, target, canRefund, accepted).GetOr(db), i)
  {
    if i < |db.orders| {
      var o := db.orders[i];
      assert OrderOk(o);
      if MayMove(o.row, target) {
        var moved := o.(row := Moved(o.row, o.row, target));
        assert MovedOrder(o, target).row == moved.row;
        assert OrderOk(MovedOrder(o, target)) && Evolves(o, MovedOrder(o, target));
      }
    }
  }

  lemma {:induction false} EditOk(db: Db, t: Db, i: nat, e: Edit)
    requires AllOk(db.orders) && Edited(db, t, i, e)
    ensures Touches(db, t, i)
  {
    assert OrderOk(db.orders[i]);
  }

  lemma {:induction false} ExpireOk(db: Db, i: nat)
    requires AllOk(db.orders)
    ensures Touches(db, Expire(db, i), i)
  {
    if i < |db.orders| {
      assert OrderOk(db.orders[i]);
    }
  }

  lemma {:induction false} SettleOk(db: Db, i: nat, r: Report, now: int)
    requires AllOk(db.orders)
    ensures Touches(db, Settle(db, i, r, now), i)
  {
    if i < |db.orders| && Accepts(db.orders[i], r) {
      var o := db.orders[i];
      assert OrderOk(o);
      if Judge(o.row, r.payment, AmountOk(o, r)) == TryConfirm {
        var settled := db.(orders := db.orders[i := SettledOrder(o, r.payment)]);
        assert OrderOk(settled.orders[i]);
        DeliverOk(settled, i, now);
      }
    }
  }

  lemma {:induction false} ConfirmOk(db: Db, i: nat, now: int)
    requires AllOk(db.orders)
    ensures Touches(db, ConfirmManual(db, i, now).GetOr(db), i)
  {
    if i < |db.orders| {
      var o := db.orders[i];
      assert OrderOk(o);
      if o.row.how == Zelle && !Terminal(o.row.status) && o.row.pay != Paid {
        var settled := db.(orders := db.orders[i := SettledOrder(o, None)]);
        assert OrderOk(settled.orders[i]);
        DeliverOk(settled, i, now);
      }
    }
  }

  lemma {:induction false} LostRowOk(o: Order, refunded: bool)
    requires OrderOk(o) && o.row.how == PayPal
    ensures var p := o.(row := if refunded then LostToRefund(o.row) else LostToDispute(o.row)); OrderOk(p) && Evolves(o, p)
  {
  }

  lemma {:induction false} LostOrderOk(o: Order, refunded: bool)
    requires OrderOk(o) && o.row.how == PayPal
    ensures var p := Revoke(o.(row := if refunded then LostToRefund(o.row) else LostToDispute(o.row)));
            OrderOk(p) && Evolves(o, p)
  {
    LostRowOk(o, refunded);
    RevokeOk(o.(row := if refunded then LostToRefund(o.row) else LostToDispute(o.row)));
  }

  lemma {:induction false} LoseOk(db: Db, i: nat, capture: Id, refunded: bool)
    requires AllOk(db.orders)
    ensures Touches(db, Lose(db, i, capture, refunded), i)
  {
    if i < |db.orders| {
      assert OrderOk(db.orders[i]);
      if db.orders[i].row.how == PayPal {
        LostOrderOk(db.orders[i], refunded);
      }
    }
  }

  lemma {:induction false} MailOk(db: Db, i: nat, sent: bool)
    requires AllOk(db.orders)
    ensures Touches(db, Mail(db, i, sent), i)
  {
    if i < |db.orders| {
      assert OrderOk(db.orders[i]);
    }
  }

  lemma {:induction false} PrepareOk(db: Db, i: nat, resend: bool, now: int)
    requires AllOk(db.orders)
    ensures Touches(db, Prepare(db, i, resend, now), i)
  {
    if i < |db.orders| && Sendable(db.orders[i], resend) {
      var o := db.orders[i];
      assert OrderOk(o);
      var grants := Fresh(o.delivery.value.grants, db.tokens, now + db.store.linkTtl);
      assert SameFiles(o.delivery.value, o.delivery.value.(grants := grants));
    }
  }

  lemma {:induction false} ClickOk(db: Db, i: nat, k: nat, token: nat, now: int)
    requires AllOk(db.orders)
    ensures Touches(db, Redeem(db, i, k, token, now), i)
  {
    if i < |db.orders| {
      assert OrderOk(db.orders[i]);
    }
  }

  /** Fields no promise speaks of may change freely. */
  lemma {:induction false} SideFieldsOk(o: Order, p: Order)
    requires OrderOk(o) && p == o.(proof := p.proof, paypalOrder := p.paypalOrder)
    ensures OrderOk(p) && Evolves(o, p)
  {
  }

  lemma {:induction false} DeclineOk(db: Db, i: nat, reference: Id)
    requires AllOk(db.orders)
    ensures Touches(db, Decline(db, i, reference), i)
  {
    if i < |db.orders| {
      assert OrderOk(db.orders[i]);
    }
  }

  lemma {:induction false} OpenPayPalOk(db: Db, i: nat, reference: Id)
    requires AllOk(db.orders)
    ensures Touches(db, OpenPayPal(db, i, reference).GetOr(db), i)
  {
    if i < |db.orders| {
      assert OrderOk(db.orders[i]);
      SideFieldsOk(db.orders[i], OpenPayPal(db, i, reference).GetOr(db).orders[i]);
    }
  }

  lemma {:induction false} ProofOk(db: Db, i: nat, given: bool)
    requires AllOk(db.orders)
    ensures Touches(db, GiveProof(db, i, given).GetOr(db), i)
  {
    if i < |db.orders| {
      assert OrderOk(db.orders[i]);
      SideFieldsOk(db.orders[i], GiveProof(db, i, given).GetOr(db).orders[i]);
    }
  }

  /** One step of the store, as seen by its orders. */
  ghost predicate Grows(db: Db, t: Db) {
    && |db.orders| <= |t.orders|
    && AllOk(t.orders)
    && (forall j :: 0 <= j < |db.orders| ==> Evolves(db.orders[j], t.orders[j]))
  }

  lemma {:induction false} TouchesGrows(db: Db, t: Db, i: nat)
    requires AllOk(db.orders) && Touches(db, t, i)
    ensures Grows(db, t)
  {
    forall j | 0 <= j < |db.orders| ensures OrderOk(t.orders[j]) && Evolves(db.orders[j], t.orders[j]) {
      assert OrderOk(db.orders[j]);
    }
  }

  lemma {:induction false} PlaceGrows(db: Db, b: Basket, allowed: set<Method>, now: int)
    requires AllOk(db.orders)
    ensures Grows(db, Create(db, b, allowed, now).GetOr(db))
  {
  }

  lemma {:induction false} StepGrows(db: Db, r: Request)
    requires AllOk(db.orders)
    ensures Grows(db, Handle(db, r))
  {
    match r
    case PlaceOrder(basket, allowed, now) => PlaceGrows(db, basket, allowed, now);
    case ChangeCatalogue(_) =>
    case ChangeStatus(i, target, canRefund, accepted) =>
      StatusOk(db, i, target, canRefund, accepted);
      TouchesGrows(db, Handle(db, r), i);
    case CorrectOrder(i, edit) =>
      if UpdateDetails(db, i, edit).Some? {
        EditFrame(db, i, edit);
        EditOk(db, UpdateDetails(db, i, edit).value, i, edit);
        TouchesGrows(db, Handle(db, r), i);
      }
    case ExpireOrder(i) =>
      ExpireOk(db, i);
      TouchesGrows(db, Handle(db, r), i);
    case ReportPayment(i, report, now) =>
      SettleOk(db, i, report, now);
      TouchesGrows(db, Handle(db, r), i);
    case ConfirmZelle(i, now) =>
      ConfirmOk(db, i, now);
      TouchesGrows(db, Handle(db, r), i);
    case LosePayPal(i, capture, refunded) =>
      LoseOk(db, i, capture, refunded);
      TouchesGrows(db, Handle(db, r), i);
    case PrepareEmail(i, resend, now) =>
      PrepareOk(db, i, resend, now);
      TouchesGrows(db, Handle(db, r), i);
    case EmailDone(i, sent) =>
      MailOk(db, i, sent);
      TouchesGrows(db, Handle(db, r), i);
    case ClickLink(i, k, token, now) =>
      ClickOk(db, i, k, token, now);
      TouchesGrows(db, Handle(db, r), i);
    case DeclinePayPal(i, reference) =>
      DeclineOk(db, i, reference);
      TouchesGrows(db, Handle(db, r), i);
    case StartPayPal(i, reference) =>
      OpenPayPalOk(db, i, reference);
      TouchesGrows(db, Handle(db, r), i);
    case SendProof(i, given) =>
      ProofOk(db, i, given);
      TouchesGrows(db, Handle(db, r), i);
  }

  lemma {:induction false} RunGrows(db: Db, requests: seq<Request>)
    requires AllOk(db.orders)
    ensures Grows(db, Run(db, requests))
    decreases |requests|
  {
    if requests != [] {
      var mid := Handle(db, requests[0]);
      StepGrows(db, requests[0]);
      RunGrows(mid, requests[1..]);
      var t := Run(mid, requests[1..]);
      forall j | 0 <= j < |db.orders| ensures Evolves(db.orders[j], t.orders[j]) {
        EvolvesTransitive(db.orders[j], mid.orders[j], t.orders[j]);
      }
    }
  }

  // ---- Results ------------------------------------------------------------------------------------

  /** Nothing leaves CANCELLED or REFUNDED, whatever any handler does afterwards. */
  lemma {:induction false} TerminalIsFinal(db: Db, before: seq<Request>, after: seq<Request>, i: nat)
    requires db.orders == [] && i < |Run(db, before).orders|
    ensures var s, t := Run(db, before), Run(Run(db, before), after);
            && i < |t.orders|
            && (Terminal(s.orders[i].row.status) ==> t.orders[i].row.status == s.orders[i].row.status)
            && (t.orders[i].row.how == PayPal && t.orders[i].row.status == Cancelled ==> t.orders[i].row.pay != Paid)
            && (t.orders[i].row.status == Refunded ==> t.orders[i].row.pay != Paid)
  {
    RunGrows(db, before);
    RunGrows(Run(db, before), after);
    var t := Run(Run(db, before), after);
    assert t.orders[i] in t.orders;
  }

  /** No click ever yields a file of a cancelled or refunded order. */
  lemma {:induction false} NoDownloadAfterTheEnd(db: Db, requests: seq<Request>, i: nat, k: nat, token: nat, now: int)
    requires db.orders == [] && Downloads(Run(db, requests), i, k, token, now)
    ensures !Terminal(Run(db, requests).orders[i].row.status)
  {
    RunGrows(db, requests);
    var t := Run(db, requests);
    assert t.orders[i] in t.orders;
  }

  /** Once a delivery is revoked it stays revoked and no link of the order ever works again, paid or not. */
  lemma {:induction false} RevokedForGood(db: Db, before: seq<Request>, after: seq<Request>, i: nat, k: nat, token: nat,
                                          now: int)
    requires db.orders == [] && i < |Run(db, before).orders|
    requires Run(db, before).orders[i].delivery.Some? && Run(db, before).orders[i].delivery.value.status == Revoked
    ensures var t := Run(Run(db, before), after);
            && i < |t.orders| && t.orders[i].delivery == Run(db, before).orders[i].delivery
            && !Downloads(t, i, k, token, now)
  {
    RunGrows(db, before);
    RunGrows(Run(db, before), after);
  }

  /** A card order is invoiced at most once by its settlements. */
  lemma {:induction false} CardOrderInvoicedOnce(db: Db, requests: seq<Request>, i: nat)
    requires db.orders == [] && i < |Run(db, requests).orders|
    ensures var o := Run(db, requests).orders[i]; CardOrder(o.row.how) ==> o.invoices <= 1
  {
    RunGrows(db, requests);
    assert Run(db, requests).orders[i] in Run(db, requests).orders;
  }

  /** A delivery, once made, is never replaced: later steps keep its files, one grant each. */
  lemma {:induction false} DeliveredOnce(db: Db, before: seq<Request>, after: seq<Request>, i: nat)
    requires db.orders == [] && i < |Run(db, before).orders| && Run(db, before).orders[i].delivery.Some?
    ensures var s, t := Run(db, before), Run(Run(db, before), after);
            i < |t.orders| && t.orders[i].delivery.Some?
            && SameFiles(s.orders[i].delivery.value, t.orders[i].delivery.value)
  {
    RunGrows(db, before);
    RunGrows(Run(db, before), after);
  }

  /** Among the files of the order's products, each is granted exactly once; no other file is granted. */
  lemma {:induction false} OneGrantPerFile(assets: seq<Asset>, items: seq<Item>, a: Asset)
    ensures multiset(AssetsFor(assets, items))[a] ==
            if exists i :: 0 <= i < |items| && items[i].product == Some(a.product) then multiset(assets)[a] else 0
  {
    if assets != [] {
      OneGrantPerFile(assets[1..], items, a);
      assert assets == [assets[0]] + assets[1..];
      var rest := AssetsFor(assets[1..], items);
      assert multiset([assets[0]] + rest) == multiset([assets[0]]) + multiset(rest);
      assert [] + rest == rest;
    }
  }

  /** One grant per file, in the files' order. */
  predicate OneGrantEach(d: Delivery, files: seq<Asset>) {
    |d.grants| == |files| && forall k :: 0 <= k < |files| ==> d.grants[k].asset == files[k].id
  }

  predicate AllUnused(d: Delivery) {
    d.status == ToSend && forall k :: 0 <= k < |d.grants| ==> !d.grants[k].revoked && d.grants[k].count == 0
  }

  /** The requests that mark an order paid. */
  predicate Settles(r: Request, i: nat) {
    (r.ReportPayment? || r.ConfirmZelle?) && r.order == i
  }

  lemma {:induction false} DeliverGrants(db: Db, i: nat, now: int)
    requires i < |db.orders| && db.orders[i].delivery.None?
    ensures var files, t := AssetsFor(db.assets, db.orders[i].items), Deliver(db, i, now);
            && |t.orders| == |db.orders|
            && (forall j :: 0 <= j < |db.orders| && j != i ==> t.orders[j] == db.orders[j])
            && (t.orders[i].delivery.Some? <==> files != [])
            && (files != [] ==> OneGrantEach(t.orders[i].delivery.value, files) && AllUnused(t.orders[i].delivery.value))
  {
  }

  lemma {:induction false} StatusKeepsUndelivered(db: Db, i: nat, target: Status, canRefund: bool, accepted: bool, j: nat)
    requires j < |db.orders| && db.orders[j].delivery.None?
    ensures var t := UpdateStatus(db, i, target, canRefund, accepted).GetOr(db);
            j < |t.orders| && t.orders[j].delivery.None?
  {
  }

  lemma {:induction false} ExpireKeepsUndelivered(db: Db, i: nat, j: nat)
    requires j < |db.orders| && db.orders[j].delivery.None?
    ensures var t := Expire(db, i); j < |t.orders| && t.orders[j].delivery.None?
  {
  }

  lemma {:induction false} PayPalKeepsUndelivered(db: Db, i: nat, capture: Id, refunded: bool, j: nat)
    requires j < |db.orders| && db.orders[j].delivery.None?
    ensures var t := Lose(db, i, capture, refunded); j < |t.orders| && t.orders[j].delivery.None?
    ensures var t := Decline(db, i, capture); j < |t.orders| && t.orders[j].delivery.None?
    ensures var t := OpenPayPal(db, i, capture).GetOr(db); j < |t.orders| && t.orders[j].delivery.None?
  {
  }

  lemma {:induction false} MailKeepsUndelivered(db: Db, i: nat, flag: bool, now: int, j: nat)
    requires j < |db.orders| && db.orders[j].delivery.None?
    ensures var t := GiveProof(db, i, flag).GetOr(db); j < |t.orders| && t.orders[j].delivery.None?
    ensures var t := Prepare(db, i, flag, now); j < |t.orders| && t.orders[j].delivery.None?
    ensures var t := Mail(db, i, flag); j < |t.orders| && t.orders[j].delivery.None?
  {
  }

  lemma {:induction false} ClickKeepsUndelivered(db: Db, i: nat, k: nat, token: nat, now: int, j: nat)
    requires j < |db.orders| && db.orders[j].delivery.None?
    ensures var t := Redeem(db, i, k, token, now); j < |t.orders| && t.orders[j].delivery.None?
  {
  }

  /** No other request makes a delivery, for this order or any other. */
  lemma {:induction false} OthersKeepUndelivered(db: Db, r: Request, j: nat)
    requires j < |db.orders| && db.orders[j].delivery.None? && !r.ReportPayment? && !r.ConfirmZelle?
    ensures var t := Handle(db, r); j < |t.orders| && t.orders[j].delivery.None?
  {
    match r
    case ChangeStatus(i, target, canRefund, accepted) => StatusKeepsUndelivered(db, i, target, canRefund, accepted, j);
    case ExpireOrder(i) => ExpireKeepsUndelivered(db, i, j);
    case CorrectOrder(i, e) =>
      if UpdateDetails(db, i, e).Some? {
        EditFrame(db, i, e);
      }
    case LosePayPal(i, capture, refunded) => PayPalKeepsUndelivered(db, i, capture, refunded, j);
    case DeclinePayPal(i, reference) => PayPalKeepsUndelivered(db, i, reference, false, j);
    case StartPayPal(i, reference) => PayPalKeepsUndelivered(db, i, reference, false, j);
    case SendProof(i, given) => MailKeepsUndelivered(db, i, given, 0, j);
    case PrepareEmail(i, resend, now) => MailKeepsUndelivered(db, i, resend, now, j);
    case EmailDone(i, sent) => MailKeepsUndelivered(db, i, sent, 0, j);
    case PlaceOrder(basket, allowed, now) => CreateSame(db, basket, allowed, now);
    case ClickLink(i, k, token, now) => ClickKeepsUndelivered(db, i, k, token, now, j);
    case ChangeCatalogue(_) =>
  }

  /** A settlement of order i delivers that order only, one unused grant per file of its products. */
  lemma {:induction false} SettlementGrants(db: Db, r: Request, j: nat)
    requires j < |db.orders| && db.orders[j].delivery.None? && (r.ReportPayment? || r.ConfirmZelle?)
    requires var t := Handle(db, r); j < |t.orders| && t.orders[j].delivery.Some?
    ensures var d := Handle(db, r).orders[j].delivery.value;
            && Settles(r, j) && OneGrantEach(d, AssetsFor(db.assets, db.orders[j].items)) && AllUnused(d)
  {
    match r
    case ReportPayment(i, report, now) =>
      SettleEither(db, i, report, now);
      if i < |db.orders| {
        PaidGrants(db, i, report.payment, now, j);
      }
    case ConfirmZelle(i, now) =>
      if i < |db.orders| {
        PaidGrants(db, i, None, now, j);
      }
  }

  lemma {:induction false} PaidGrants(db: Db, i: nat, payment: Option<Id>, now: int, j: nat)
    requires i < |db.orders| && j < |db.orders| && db.orders[j].delivery.None?
    ensures var t := Deliver(db.(orders := db.orders[i := SettledOrder(db.orders[i], payment)]), i, now);
            && |t.orders| == |db.orders|
            && (t.orders[j].delivery.Some? ==>
                  && i == j && OneGrantEach(t.orders[j].delivery.value, AssetsFor(db.assets, db.orders[j].items))
                  && AllUnused(t.orders[j].delivery.value))
  {
    var settled := db.(orders := db.orders[i := SettledOrder(db.orders[i], payment)]);
    DeliverSame(settled, i, now);
    if i == j {
      DeliverGrants(settled, i, now);
    }
  }

  /** Which step made the delivery, and for which files. */
  ghost predicate DeliveredAt(db: Db, requests: seq<Request>, i: nat, n: nat, d: Delivery) {
    && n < |requests| && Settles(requests[n], i)
    && var s := Run(db, requests[..n]);
    && i < |s.orders| && s.orders[i].delivery.None?
    && OneGrantEach(d, AssetsFor(db.assets, s.orders[i].items))
  }

  lemma {:induction false} NewOrdersUndelivered(db: Db, r: Request, i: nat)
    requires |db.orders| <= i < |Handle(db, r).orders|
    ensures Handle(db, r).orders[i].delivery.None?
  {
    if !r.PlaceOrder? {
      if r.CorrectOrder? {
        if UpdateDetails(db, r.order, r.edit).Some? {
          EditFrame(db, r.order, r.edit);
        }
      } else if NeverMoves(r) {
        StepAside(db, r);
      }
    }
  }

  /**
   * Over every run each delivery was made by one settlement of its order, whichever it was, and has
   * exactly one grant per file found for the order's products at that step, ever since.
   */
  lemma {:induction false} DeliveryHasItsFiles(db: Db, requests: seq<Request>, i: nat)
    requires db.orders == [] && i < |Run(db, requests).orders| && Run(db, requests).orders[i].delivery.Some?
    ensures exists n: nat :: DeliveredAt(db, requests, i, n, Run(db, requests).orders[i].delivery.value)
  {
    if requests != [] {
      var n := |requests| - 1;
      var init, last := requests[..n], requests[n];
      var s, t := Run(db, init), Run(db, requests);
      RunSnoc(db, requests);
      if |s.orders| <= i {
        NewOrdersUndelivered(s, last, i);
      } else if s.orders[i].delivery.Some? {
        DeliveryHasItsFiles(db, init, i);
        var m: nat :| DeliveredAt(db, init, i, m, s.orders[i].delivery.value);
        assert requests[..m] == init[..m];
        RunGrows(db, init);
        StepGrows(s, last);
        assert Evolves(s.orders[i], t.orders[i]);
        assert DeliveredAt(db, requests, i, m, t.orders[i].delivery.value);
      } else {
        RunKeepsSettings(db, init);
        if !last.ReportPayment? && !last.ConfirmZelle? {
          OthersKeepUndelivered(s, last, i);
        }
        SettlementGrants(s, last, i);
        assert DeliveredAt(db, requests, i, n, t.orders[i].delivery.value);
      }
    }
  }
}
