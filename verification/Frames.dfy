/** What each request leaves alone, stated once for every result over runs. */
module Frames {
  import opened Base
  import opened Lifecycle
  import opened Domain
  import opened Checkout
  import opened Editing
  import opened DigitalDelivery
  import opened OrderStatus
  import opened Settlement
  import opened History

  /** The same sale: lines, coupon, amounts and shipping are untouched. */
  ghost predicate SameSale(o: Order, p: Order) {
    p == o.(row := p.row, proof := p.proof, paypalOrder := p.paypalOrder, delivery := p.delivery, invoices := p.invoices)
  }

  /** The rows an order's totals depend on are never written: settings, files and shipping options. */
  ghost predicate SameSettings(db: Db, t: Db) {
    t.store == db.store && t.assets == db.assets && t.shippings == db.shippings
  }

  /** Of a coupon row these handlers only ever change the counter. */
  ghost predicate SameOffers(a: map<Id, Coupon>, b: map<Id, Coupon>) {
    a.Keys == b.Keys && forall c :: c in a ==> b[c] == a[c].(used := b[c].used)
  }

  /** Every sale stays as it was placed, and new ones are only added. */
  ghost predicate SameSales(db: Db, t: Db) {
    && SameSettings(db, t) && SameOffers(db.coupons, t.coupons)
    && (!db.store.tracks ==> t.shelf == db.shelf)
    && |db.orders| <= |t.orders|
    && forall j :: 0 <= j < |db.orders| ==> SameSale(db.orders[j], t.orders[j])
  }

  /** No stock or coupon row is written either, and no order cancelled. */
  ghost predicate Aside(db: Db, t: Db) {
    && SameSales(db, t) && t.shelf == db.shelf && t.coupons == db.coupons && |t.orders| == |db.orders|
    && forall j :: 0 <= j < |db.orders| && t.orders[j].row.status == Cancelled ==> db.orders[j].row.status == Cancelled
  }

  /** Requests that write neither stock nor coupon rows, on every input. */
  predicate NeverMoves(r: Request) {
    !r.PlaceOrder? && !r.ChangeStatus? && !r.CorrectOrder? && !r.ExpireOrder?
  }

  lemma {:induction false} OneAside(db: Db, i: nat, p: Order, asked: set<(Method, Id)>, tokens: nat)
    requires i < |db.orders| && SameSale(db.orders[i], p)
    requires p.row.status == Cancelled ==> db.orders[i].row.status == Cancelled
    ensures Aside(db, db.(orders := db.orders[i := p], asked := asked, tokens := tokens))
  {
  }

  lemma {:induction false} RevokeSame(o: Order)
    ensures SameSale(o, Revoke(o)) && Revoke(o).row == o.row
  {
  }

  lemma {:induction false} DeliverSame(db: Db, i: nat, now: int)
    requires i < |db.orders|
    ensures var t := Deliver(db, i, now);
            && |t.orders| == |db.orders| && SameSale(db.orders[i], t.orders[i]) && t.orders[i].row == db.orders[i].row
            && t == db.(orders := db.orders[i := t.orders[i]], tokens := t.tokens)
  {
  }

  /** Marking an order paid and making its delivery. */
  lemma {:induction false} PaidAside(db: Db, i: nat, payment: Option<Id>, now: int)
    requires i < |db.orders|
    ensures Aside(db, Deliver(db.(orders := db.orders[i := SettledOrder(db.orders[i], payment)]), i, now))
  {
    var settled := db.(orders := db.orders[i := SettledOrder(db.orders[i], payment)]);
    DeliverSame(settled, i, now);
    var t := Deliver(settled, i, now);
    assert t == db.(orders := db.orders[i := t.orders[i]], tokens := t.tokens);
    OneAside(db, i, t.orders[i], db.asked, t.tokens);
  }

  lemma {:induction false} AskedAside(db: Db, asked: set<(Method, Id)>)
    ensures Aside(db, db.(asked := asked))
  {
  }

  /** A settlement either only asks for refunds, or marks the order paid and delivers it. */
  lemma {:induction false} SettleEither(db: Db, i: nat, r: Report, now: int)
    ensures var t := Settle(db, i, r, now);
            || t == db.(asked := t.asked)
            || (i < |db.orders|
                && t == Deliver(db.(orders := db.orders[i := SettledOrder(db.orders[i], r.payment)]), i, now))
  {
  }

  lemma {:induction false} SettleAside(db: Db, i: nat, r: Report, now: int)
    ensures Aside(db, Settle(db, i, r, now))
  {
    var t := Settle(db, i, r, now);
    SettleEither(db, i, r, now);
    if t == db.(asked := t.asked) {
      AskedAside(db, t.asked);
    } else {
      PaidAside(db, i, r.payment, now);
    }
  }

  lemma {:induction false} ConfirmAside(db: Db, i: nat, now: int)
    ensures Aside(db, ConfirmManual(db, i, now).GetOr(db))
  {
    if i < |db.orders| {
      PaidAside(db, i, None, now);
    }
  }

  lemma {:induction false} LoseAside(db: Db, i: nat, capture: Id, refunded: bool)
    ensures Aside(db, Lose(db, i, capture, refunded))
  {
    var t := Lose(db, i, capture, refunded);
    if t != db {
      var row := if refunded then LostToRefund(db.orders[i].row) else LostToDispute(db.orders[i].row);
      RevokeSame(db.orders[i].(row := row));
      OneAside(db, i, t.orders[i], db.asked, db.tokens);
    }
  }

  lemma {:induction false} DeclineAside(db: Db, i: nat, reference: Id)
    ensures Aside(db, Decline(db, i, reference))
  {
    var t := Decline(db, i, reference);
    if t != db {
      OneAside(db, i, t.orders[i], db.asked, t.tokens);
    }
  }

  lemma {:induction false} OpenPayPalAside(db: Db, i: nat, reference: Id)
    ensures Aside(db, OpenPayPal(db, i, reference).GetOr(db))
  {
    var t := OpenPayPal(db, i, reference).GetOr(db);
    if t != db {
      OneAside(db, i, t.orders[i], db.asked, t.tokens);
    }
  }

  lemma {:induction false} ProofAside(db: Db, i: nat, given: bool)
    ensures Aside(db, GiveProof(db, i, given).GetOr(db))
  {
    var t := GiveProof(db, i, given).GetOr(db);
    if t != db {
      OneAside(db, i, t.orders[i], db.asked, t.tokens);
    }
  }

  lemma {:induction false} PrepareAside(db: Db, i: nat, resend: bool, now: int)
    ensures Aside(db, Prepare(db, i, resend, now))
  {
    var t := Prepare(db, i, resend, now);
    if t != db {
      OneAside(db, i, t.orders[i], db.asked, t.tokens);
    }
  }

  lemma {:induction false} MailAside(db: Db, i: nat, sent: bool)
    ensures Aside(db, Mail(db, i, sent))
  {
    var t := Mail(db, i, sent);
    if t != db {
      OneAside(db, i, t.orders[i], db.asked, t.tokens);
    }
  }

  lemma {:induction false} ClickAside(db: Db, i: nat, k: nat, token: nat, now: int)
    ensures Aside(db, Redeem(db, i, k, token, now))
  {
    var t := Redeem(db, i, k, token, now);
    if t != db {
      OneAside(db, i, t.orders[i], db.asked, t.tokens);
    }
  }

  lemma {:induction false} StepAside(db: Db, r: Request)
    requires NeverMoves(r)
    ensures Aside(db, Handle(db, r))
  {
    match r
    case ReportPayment(i, report, now) => SettleAside(db, i, report, now);
    case ConfirmZelle(i, now) => ConfirmAside(db, i, now);
    case LosePayPal(i, capture, refunded) => LoseAside(db, i, capture, refunded);
    case DeclinePayPal(i, reference) => DeclineAside(db, i, reference);
    case StartPayPal(i, reference) => OpenPayPalAside(db, i, reference);
    case SendProof(i, given) => ProofAside(db, i, given);
    case PrepareEmail(i, resend, now) => PrepareAside(db, i, resend, now);
    case EmailDone(i, sent) => MailAside(db, i, sent);
    case ClickLink(i, k, token, now) => ClickAside(db, i, k, token, now);
    case ChangeCatalogue(_) =>
  }

  lemma {:induction false} FreeOrderSame(db: Db, o: Order, stock: bool)
    ensures var t := FreeOrder(db, o, stock);
            && t == db.(shelf := t.shelf, coupons := t.coupons)
            && SameOffers(db.coupons, t.coupons) && (!stock ==> t.shelf == db.shelf)
  {
  }

  lemma {:induction false} StatusSame(db: Db, i: nat, target: Status, canRefund: bool, accepted: bool)
    ensures SameSales(db, UpdateStatus(db, i, target, canRefund, accepted).GetOr(db))
  {
    if UpdateStatus(db, i, target, canRefund, accepted).Some? {
      var o := db.orders[i];
      RevokeSame(o.(row := Moved(o.row, o.row, target)));
      FreeOrderSame(db, o, db.store.tracks);
      assert SameSale(o, MovedOrder(o, target));
    }
  }

  lemma {:induction false} ExpireSame(db: Db, i: nat)
    ensures SameSales(db, Expire(db, i))
  {
    if i < |db.orders| {
      FreeOrderSame(db, db.orders[i], db.store.tracks && !db.store.digital);
    }
  }

  lemma {:induction false} CreateSame(db: Db, b: Basket, allowed: set<Method>, now: int)
    ensures SameSales(db, Create(db, b, allowed, now).GetOr(db))
  {
  }

  /** Only a correction changes a sale. */
  lemma {:induction false} StepSame(db: Db, r: Request)
    requires !r.CorrectOrder?
    ensures SameSales(db, Handle(db, r))
  {
    match r
    case PlaceOrder(basket, allowed, now) => CreateSame(db, basket, allowed, now);
    case ChangeStatus(i, target, canRefund, accepted) => StatusSame(db, i, target, canRefund, accepted);
    case ExpireOrder(i) => ExpireSame(db, i);
    case _ => StepAside(db, r);
  }

  lemma {:induction false} ReworkUntracked(db: Db, o: Order, e: Edit)
    requires !db.store.tracks && Rework(db, o, e).Some?
    ensures Rework(db, o, e).value.1 == db.shelf
  {
  }

  /** Settings and offers never change at all, nor does stock in a store that does not track it. */
  lemma {:induction false} StepKeepsSettings(db: Db, r: Request)
    ensures var t := Handle(db, r);
            && SameSettings(db, t) && SameOffers(db.coupons, t.coupons) && (!db.store.tracks ==> t.shelf == db.shelf)
            && |db.orders| <= |t.orders|
  {
    if r.CorrectOrder? {
      if UpdateDetails(db, r.order, r.edit).Some? {
        EditFrame(db, r.order, r.edit);
        if !db.store.tracks {
          ReworkUntracked(db, db.orders[r.order], r.edit);
        }
      }
    } else {
      StepSame(db, r);
    }
  }

  lemma {:induction false} RunKeepsSettings(db: Db, requests: seq<Request>)
    ensures var t := Run(db, requests);
            && SameSettings(db, t) && SameOffers(db.coupons, t.coupons) && (!db.store.tracks ==> t.shelf == db.shelf)
            && |db.orders| <= |t.orders|
    decreases |requests|
  {
    if requests != [] {
      StepKeepsSettings(db, requests[0]);
      RunKeepsSettings(Handle(db, requests[0]), requests[1..]);
    }
  }
}
