/** Settlements, PayPal's own refunds and disputes, manual confirmations, and the delivery they create. */
module PaymentsService {
  import opened Base
  import opened Lifecycle
  import opened Domain
  import opened DigitalDelivery
  import opened Settlement
  import opened Tables

  class Service {
    const db: Database

    constructor (db: Database)
      ensures this.db == db
    {
      this.db := db;
    }

    /** The digital delivery of an order just marked paid; nothing when it has no files or was delivered before. */
    method CreateDelivery(i: nat, now: int)
      requires i < |db.orders|
      modifies db
      ensures db.State() == Deliver(old(db.State()), i, now)
    {
      var order := db.orders[i];
      var files := AssetsFor(db.assets, order.items);
      if files == [] || order.delivery.Some? {
        return;
      }
      var grants := [];
      for k := 0 to |files|
        invariant grants == NewGrants(files[..k], old(db.tokens), now + db.store.linkTtl, db.store.maxDownloads)
        invariant db.tokens == old(db.tokens) + k
        invariant db.State() == old(db.State()).(tokens := db.tokens)
      {
        grants := grants + [Grant(files[k].id, db.tokens, now + db.store.linkTtl, db.store.maxDownloads, 0, false)];
        db.tokens := db.tokens + 1;
      }
      assert files[..|files|] == files;
      db.orders := db.orders[i := order.(delivery := Some(Delivery(ToSend, 0, grants)))];
    }

    /** The conditional UPDATE, on whatever row it finds by then: it confirms, or says whether the payment goes back. */
    method ClaimPaid(i: nat, r: Report, now: int) returns (refundNeeded: bool)
      requires i < |db.orders|
      modifies db
      ensures var was := old(db.State());
              ClaimOrLose(was, i, r, now) == if refundNeeded && r.payment.Some?
                                             then db.State().(asked := db.asked + {(r.how, r.payment.value)})
                                             else db.State()
      ensures Claimable(old(db.orders[i]).row) ==> !refundNeeded
      ensures !Claimable(old(db.orders[i]).row) ==> db.State() == old(db.State())
    {
      var found := db.orders[i];
      if !Claimable(found.row) {
        return LoserGivesBack(found.row, r.payment);
      }
      db.orders := db.orders[i := SettledOrder(found, r.payment)];
      CreateDelivery(i, now);
      refundNeeded := false;
    }

    /** A paid report: confirm, ignore or return it; the conditional UPDATE decides who confirms. */
    method HandlePaid(i: nat, r: Report, now: int)
      modifies db
      ensures db.State() == Settle(old(db.State()), i, r, now)
    {
      if i >= |db.orders| || !Accepts(db.orders[i], r) {
        return;
      }
      var existing := db.orders[i];
      var refundNeeded := false;
      match Judge(existing.row, r.payment, AmountOk(existing, r)) {
        case Ignore =>
        case GiveBack =>
          refundNeeded := true;
        case TryConfirm =>
          refundNeeded := ClaimPaid(i, r, now);
      }
      if refundNeeded && r.payment.Some? {
        db.asked := db.asked + {(r.how, r.payment.value)};
      }
    }

    method MarkPayPalOrderLost(i: nat, capture: Id, refunded: bool)
      modifies db
      ensures db.State() == Lose(old(db.State()), i, capture, refunded)
    {
      if i >= |db.orders| || db.orders[i].row.how != PayPal || db.orders[i].row.charge != Some(capture) {
        return;
      }
      var row := db.orders[i].row;
      if refunded && row.pay == Paid {
        row := row.(pay := Returned, status := Refunded);
      } else if !refunded && (row.pay == Paid || row.pay == Returned) {
        row := row.(pay := Disputed);
      }
      db.orders := db.orders[i := db.orders[i].(row := row)];
      db.orders := db.orders[i := Revoke(db.orders[i])];
    }

    method ConfirmManualPayment(i: nat, now: int) returns (ok: bool)
      modifies db
      ensures ok == ConfirmManual(old(db.State()), i, now).Some?
      ensures db.State() == ConfirmManual(old(db.State()), i, now).GetOr(old(db.State()))
    {
      if i >= |db.orders| || db.orders[i].row.how != Zelle || Terminal(db.orders[i].row.status) {
        return false;
      }
      if db.orders[i].row.pay == Paid {
        return true;
      }
      if !db.orders[i].proof {
        return false;
      }
      db.orders := db.orders[i := SettledOrder(db.orders[i], None)];
      CreateDelivery(i, now);
      ok := true;
    }

    /** Fresh tokens for every link, one grant at a time, just before the email is built. */
    method PrepareDelivery(i: nat, resend: bool, now: int) returns (sendable: bool)
      modifies db
      ensures db.State() == Prepare(old(db.State()), i, resend, now)
      ensures sendable == (i < |old(db.orders)| && Sendable(old(db.orders[i]), resend))
    {
      if i >= |db.orders| || !Sendable(db.orders[i], resend) {
        return false;
      }
      var order := db.orders[i];
      var delivery := order.delivery.value;
      var grants := delivery.grants;
      var expiresAt := now + db.store.linkTtl;
      for k := 0 to |grants|
        invariant |grants| == |delivery.grants|
        invariant grants[..k] == Fresh(delivery.grants, old(db.tokens), expiresAt)[..k]
        invariant grants[k..] == delivery.grants[k..]
        invariant db.tokens == old(db.tokens) + k
        invariant db.State() == old(db.State()).(tokens := db.tokens)
      {
        assert grants[k] == grants[k..][0] == delivery.grants[k];
        grants := grants[k := grants[k].(token := db.tokens, expiresAt := expiresAt, count := 0, revoked := false)];
        db.tokens := db.tokens + 1;
      }
      assert grants == Fresh(delivery.grants, old(db.tokens), expiresAt);
      db.orders := db.orders[i := order.(delivery := Some(delivery.(grants := grants)))];
      sendable := true;
    }

    /** A click: the file's grant is counted by one conditional UPDATE, and only then served. */
    method RedeemLink(i: nat, k: nat, token: nat, now: int) returns (asset: Option<Id>)
      modifies db
      ensures db.State() == Redeem(old(db.State()), i, k, token, now)
      ensures asset.Some? == Downloads(old(db.State()), i, k, token, now)
      ensures asset.Some? ==> asset.value == old(db.orders)[i].delivery.value.grants[k].asset
    {
      if !HasLink(db.State(), i, k, token) {
        return None;
      }
      var order := db.orders[i];
      var delivery := order.delivery.value;
      var grant := delivery.grants[k];
      var dead := GrantRejection(grant, now);
      if dead.Some? || delivery.status == Revoked || order.row.pay != Paid {
        return None;
      }
      var counted := grant.(count := grant.count + 1);
      db.orders := db.orders[i := order.(delivery := Some(delivery.(grants := delivery.grants[k := counted])))];
      asset := Some(grant.asset);
    }
  }
}
