/** Digital deliveries: one per paid order, its links minted when the email is built, revoked, redeemed. */
module DigitalDelivery {
  import opened Base
  import opened Lifecycle
  import opened Domain

  predicate Sells(items: seq<Item>, product: Id) {
    exists i :: 0 <= i < |items| && items[i].product == Some(product)
  }

  /** The files of the products on the order, each once however often its product is listed. */
  function AssetsFor(assets: seq<Asset>, items: seq<Item>): seq<Asset> {
    if assets == [] then []
    else (if Sells(items, assets[0].product) then [assets[0]] else []) + AssetsFor(assets[1..], items)
  }

  /** One grant per file; its placeholder token is drawn and never told to anyone. */
  function NewGrants(assets: seq<Asset>, token: nat, expiresAt: int, maxDownloads: nat): seq<Grant> {
    seq(|assets|, k requires 0 <= k < |assets| => Grant(assets[k].id, token + k, expiresAt, maxDownloads, 0, false))
  }

  /** Inside the transaction that marks the order paid; a delivery that exists already is left alone. */
  function Deliver(db: Db, i: nat, now: int): Db
    requires i < |db.orders|
  {
    var o := db.orders[i];
    var assets := AssetsFor(db.assets, o.items);
    if assets == [] || o.delivery.Some? then db
    else
      var grants := NewGrants(assets, db.tokens, now + db.store.linkTtl, db.store.maxDownloads);
      db.(orders := db.orders[i := o.(delivery := Some(Delivery(ToSend, 0, grants)))],
          tokens := db.tokens + |assets|)
  }

  function Fresh(grants: seq<Grant>, token: nat, expiresAt: int): seq<Grant> {
    seq(|grants|, k requires 0 <= k < |grants| =>
      grants[k].(token := token + k, expiresAt := expiresAt, count := 0, revoked := false))
  }

  /** Whether there is anything (still) to send. */
  predicate Sendable(o: Order, resend: bool) {
    && o.delivery.Some?
    && o.delivery.value.status != Revoked
    && (o.delivery.value.status == Sent ==> resend)
    && o.row.pay == Paid
    && o.email
  }

  /** Mints new tokens for every link just before the email is built. */
  function Prepare(db: Db, i: nat, resend: bool, now: int): Db {
    if i >= |db.orders| || !Sendable(db.orders[i], resend) then db
    else
      var o := db.orders[i];
      var d := o.delivery.value;
      var grants := Fresh(d.grants, db.tokens, now + db.store.linkTtl);
      db.(orders := db.orders[i := o.(delivery := Some(d.(grants := grants)))], tokens := db.tokens + |d.grants|)
  }

  function Mailed(o: Order, sent: bool): Order {
    if o.delivery.None? || o.delivery.value.status == Revoked then o
    else
      var d := o.delivery.value.(attempts := o.delivery.value.attempts + 1);
      o.(delivery := Some(if sent then d.(status := Sent) else d))
  }

  function RevokeGrants(grants: seq<Grant>): seq<Grant> {
    seq(|grants|, k requires 0 <= k < |grants| => grants[k].(revoked := true))
  }

  /** Switches every link of the order off, for good. */
  function Revoke(o: Order): Order {
    if o.delivery.None? || o.delivery.value.status == Revoked then o
    else o.(delivery := Some(o.delivery.value.(status := Revoked, grants := RevokeGrants(o.delivery.value.grants))))
  }

  datatype Rejection = LinkRevoked | LinkExpired | LinkExhausted

  function GrantRejection(g: Grant, now: int): Option<Rejection> {
    if g.revoked then Some(LinkRevoked)
    else if g.expiresAt <= now then Some(LinkExpired)
    else if g.count >= g.maxDownloads then Some(LinkExhausted)
    else None
  }

  predicate HasLink(db: Db, i: nat, k: nat, token: nat) {
    && i < |db.orders| && db.orders[i].delivery.Some?
    && k < |db.orders[i].delivery.value.grants|
    && db.orders[i].delivery.value.grants[k].token == token
  }

  /** A click on a link: the file, when the link is found, alive and its order still paid. */
  predicate Downloads(db: Db, i: nat, k: nat, token: nat, now: int) {
    && HasLink(db, i, k, token)
    && GrantRejection(db.orders[i].delivery.value.grants[k], now).None?
    && db.orders[i].delivery.value.status != Revoked
    && db.orders[i].row.pay == Paid
  }

  function Redeem(db: Db, i: nat, k: nat, token: nat, now: int): Db {
    if !Downloads(db, i, k, token, now) then db
    else
      var o := db.orders[i];
      var d := o.delivery.value;
      var g := d.grants[k].(count := d.grants[k].count + 1);
      db.(orders := db.orders[i := o.(delivery := Some(d.(grants := d.grants[k := g])))])
  }
}
