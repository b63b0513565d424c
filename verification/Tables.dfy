/** The store's tables as handlers write them in place; a request that throws is rolled back. */
module Tables {
  import opened Base
  import opened Stock
  import opened Lifecycle
  import opened Domain

  class Database {
    const store: Store
    var catalogue: map<Id, Product>
    var assets: seq<Asset>
    var shippings: map<Id, Shipping>
    var coupons: map<Id, Coupon>
    var shelf: Shelf
    var orders: seq<Order>
    var asked: set<(Method, Id)>
    var tokens: nat

    function State(): Db
      reads this
    {
      Db(store, catalogue, assets, shippings, coupons, shelf, orders, asked, tokens)
    }

    constructor (db: Db)
      ensures State() == db
    {
      store := db.store;
      catalogue, assets, shippings, coupons := db.catalogue, db.assets, db.shippings, db.coupons;
      shelf, orders, asked, tokens := db.shelf, db.orders, db.asked, db.tokens;
    }

    /** Ends a transaction that threw: every table as it was when it began. */
    method Rollback(saved: Db)
      requires saved.store == store
      modifies this
      ensures State() == saved
    {
      catalogue, assets, shippings, coupons := saved.catalogue, saved.assets, saved.shippings, saved.coupons;
      shelf, orders, asked, tokens := saved.shelf, saved.orders, saved.asked, saved.tokens;
    }

    /** Takes stock line by line; false as soon as one line updates no row. */
    method ReserveStock(lines: seq<Demand>) returns (ok: bool)
      modifies this`shelf
      ensures ok ==> Reserve(old(shelf), lines) == Some(shelf)
      ensures !ok ==> Reserve(old(shelf), lines).None?
    {
      for i := 0 to |lines|
        invariant Reserve(shelf, lines[i..]) == Reserve(old(shelf), lines)
      {
        var d := lines[i];
        assert lines[i..][1..] == lines[i + 1..];
        if d.slot !in shelf || shelf[d.slot] < d.quantity {
          return false;
        }
        shelf := shelf[d.slot := shelf[d.slot] - d.quantity];
      }
      assert lines[|lines|..] == [];
      ok := true;
    }

    /** Returns stock to the shelf; a row deleted since is skipped. */
    method ReleaseStock(lines: seq<Demand>)
      modifies this`shelf
      ensures shelf == Release(old(shelf), lines)
    {
      for i := 0 to |lines|
        invariant Release(shelf, lines[i..]) == Release(old(shelf), lines)
      {
        var d := lines[i];
        assert lines[i..][1..] == lines[i + 1..];
        if d.slot in shelf {
          shelf := shelf[d.slot := shelf[d.slot] + d.quantity];
        }
      }
      assert lines[|lines|..] == [];
    }
  }
}
