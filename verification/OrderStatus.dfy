/** Status changes made by staff, and the sweep that cancels abandoned online orders. */
module OrderStatus {
  import opened Base
  import opened Stock
  import opened Lifecycle
  import opened Domain
  import opened Checkout
  import opened DigitalDelivery

  /** Stock and the coupon use an order took go back. */
  function FreeOrder(db: Db, o: Order, stock: bool): Db {
    db.(shelf := if stock then Release(db.shelf, HeldBy(o.items)) else db.shelf,
        coupons := GiveBackUse(db.coupons, o.coupon))
  }

  function MovedOrder(o: Order, target: Status): Order {
    var moved := o.(row := Moved(o.row, o.row, target));
    if Terminal(target) && o.row.pay == Paid then Revoke(moved) else moved
  }

  /** `canRefund`: the caller may return money. `accepted`: the provider accepts the refund, if one is asked. */
  function UpdateStatus(db: Db, i: nat, target: Status, canRefund: bool, accepted: bool): Option<Db> {
    if i >= |db.orders| || !MayMove(db.orders[i].row, target) then None
    else
      var o := db.orders[i];
      if (ReturnsMoney(o.row, target) || target == Refunded) && !canRefund then None
      else
        var back := RefundOnMove(o.row, target);
        if back.Some? && !accepted then None
        else
          var freed := if GivesBack(o.row, target) then FreeOrder(db, o, db.store.tracks) else db;
          Some(freed.(orders := db.orders[i := MovedOrder(o, target)],
                      asked := if back.Some? then db.asked + {(o.row.how, back.value)} else db.asked))
  }

  /** One stale order's own transaction: a no-op when it was paid or moved since it was selected. */
  function Expire(db: Db, i: nat): Db {
    if i >= |db.orders| || !Gateway(db.orders[i].row.how) || !Abandoned(db.orders[i].row) then db
    else
      var o := db.orders[i];
      FreeOrder(db, o, db.store.tracks && !db.store.digital).(orders := db.orders[i := o.(row := Expired(o.row))])
  }

  function ExpireAll(db: Db, ids: seq<nat>): Db {
    if ids == [] then db else Expire(ExpireAll(db, ids[..|ids| - 1]), ids[|ids| - 1])
  }

  predicate Stale(o: Order, cutoff: int) {
    Gateway(o.row.how) && Abandoned(o.row) && o.createdAt < cutoff
  }

  const SWEEP_BATCH: nat := 500

  /** The orders one sweep looks at: abandoned before the cutoff, at most a batch. */
  function Selection(orders: seq<Order>, cutoff: int, room: nat): seq<nat> {
    if orders == [] then []
    else
      var n := |orders| - 1;
      var ids := Selection(orders[..n], cutoff, room);
      if Stale(orders[n], cutoff) && |ids| < room then ids + [n] else ids
  }

  /** How long an online order may wait for its payment: two hours, in milliseconds. */
  const STALE_ORDER_TTL: nat := 2 * 60 * 60 * 1000

  function Sweep(db: Db, now: int): Db {
    ExpireAll(db, Selection(db.orders, now - STALE_ORDER_TTL, SWEEP_BATCH))
  }
}
