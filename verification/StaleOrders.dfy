/** The sweep of abandoned online orders: each is claimed and freed in a transaction of its own. */
module StaleOrders {
  import opened Lifecycle
  import opened Domain
  import opened Checkout
  import opened OrderStatus
  import opened Tables

  class Processor {
    const db: Database

    constructor (db: Database)
      ensures this.db == db
    {
      this.db := db;
    }

    method ExpireOne(i: nat) returns (cancelled: bool)
      modifies db
      ensures db.State() == Expire(old(db.State()), i)
      ensures cancelled == (i < |old(db.orders)| && Gateway(old(db.orders[i]).row.how) && Abandoned(old(db.orders[i]).row))
    {
      if i >= |db.orders| || !Gateway(db.orders[i].row.how) || !Abandoned(db.orders[i].row) {
        return false;
      }
      var order := db.orders[i];
      db.orders := db.orders[i := order.(row := Expired(order.row))];
      if db.store.tracks && !db.store.digital {
        db.ReleaseStock(HeldBy(order.items));
      }
      db.coupons := GiveBackUse(db.coupons, order.coupon);
      cancelled := true;
    }

    method Process(now: int)
      modifies db
      ensures db.State() == Sweep(old(db.State()), now)
    {
      var stale := Selection(db.orders, now - STALE_ORDER_TTL, SWEEP_BATCH);
      var cancelled := 0;
      for k := 0 to |stale|
        invariant db.State() == ExpireAll(old(db.State()), stale[..k])
      {
        assert stale[..k + 1][..k] == stale[..k];
        var won := ExpireOne(stale[k]);
        cancelled := cancelled + if won then 1 else 0;
      }
      assert stale[..|stale|] == stale;
    }
  }
}
