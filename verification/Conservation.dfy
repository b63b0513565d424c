/** Stock and coupon uses over whole runs: what left the shelf is on live orders, and nowhere else. */
module Conservation {
  import opened Base
  import opened Stock
  import opened Lifecycle
  import opened Domain
  import opened Checkout
  import opened Editing
  import opened OrderTotals
  import opened OrderStatus
  import opened History
  import opened OrderLaws
  import opened Frames

  predicate Live(o: Order) {
    o.row.status != Cancelled
  }

  function HeldOn(o: Order, slot: Slot): nat {
    if Live(o) then Asked(HeldBy(o.items), slot) else 0
  }

  /** Units of one stock row on all orders that are not cancelled. */
  function Holdings(orders: seq<Order>, slot: Slot): nat {
    if orders == [] then 0 else HeldOn(orders[0], slot) + Holdings(orders[1..], slot)
  }

  function UseOn(o: Order, coupon: Id): nat {
    if Live(o) && o.coupon == Some(coupon) then 1 else 0
  }

  /** Orders that are not cancelled and carry the coupon. */
  function Uses(orders: seq<Order>, coupon: Id): nat {
    if orders == [] then 0 else UseOn(orders[0], coupon) + Uses(orders[1..], coupon)
  }

  lemma {:induction false} HoldingsUpdate(orders: seq<Order>, i: nat, o: Order, slot: Slot)
    requires i < |orders|
    ensures Holdings(orders[i := o], slot) == Holdings(orders, slot) - HeldOn(orders[i], slot) + HeldOn(o, slot)
  {
    if i == 0 {
      assert orders[i := o][1..] == orders[1..];
    } else {
      assert orders[i := o][1..] == orders[1..][i - 1 := o];
      HoldingsUpdate(orders[1..], i - 1, o, slot);
    }
  }

  lemma {:induction false} HoldingsAppend(orders: seq<Order>, o: Order, slot: Slot)
    ensures Holdings(orders + [o], slot) == Holdings(orders, slot) + HeldOn(o, slot)
  {
    if orders == [] {
      assert orders + [o] == [o];
    } else {
      assert (orders + [o])[1..] == orders[1..] + [o];
      HoldingsAppend(orders[1..], o, slot);
    }
  }

  lemma {:induction false} UsesUpdate(orders: seq<Order>, i: nat, o: Order, coupon: Id)
    requires i < |orders|
    ensures Uses(orders[i := o], coupon) == Uses(orders, coupon) - UseOn(orders[i], coupon) + UseOn(o, coupon)
  {
    if i == 0 {
      assert orders[i := o][1..] == orders[1..];
    } else {
      assert orders[i := o][1..] == orders[1..][i - 1 := o];
      UsesUpdate(orders[1..], i - 1, o, coupon);
    }
  }

  lemma {:induction false} UsesAppend(orders: seq<Order>, o: Order, coupon: Id)
    ensures Uses(orders + [o], coupon) == Uses(orders, coupon) + UseOn(o, coupon)
  {
    if orders == [] {
      assert orders + [o] == [o];
    } else {
      assert (orders + [o])[1..] == orders[1..] + [o];
      UsesAppend(orders[1..], o, coupon);
    }
  }

  /** Nothing a step can do changes the sum of shelf and live orders, or the list of stock rows. */
  ghost predicate StockKept(db: Db, t: Db) {
    && t.shelf.Keys == db.shelf.Keys
    && (forall slot :: slot in db.shelf ==>
          t.shelf[slot] + Holdings(t.orders, slot) == db.shelf[slot] + Holdings(db.orders, slot))
  }

  /** The counters follow the orders: each coupon's count moves exactly as the live orders carrying it. */
  ghost predicate CountsTrue(db: Db) {
    && (forall c :: c in db.coupons ==>
          && db.coupons[c].used == Uses(db.orders, c)
          && (db.coupons[c].limit.Some? ==> db.coupons[c].used <= db.coupons[c].limit.value))
    && (forall o :: o in db.orders && o.coupon.Some? ==> o.coupon.value in db.coupons)
  }

  /** A step that writes no stock or coupon row and keeps every order's lines and coupon, live or not as before. */
  ghost predicate Unmoved(db: Db, t: Db) {
    && t.shelf == db.shelf && t.coupons == db.coupons && |t.orders| == |db.orders|
    && forall j :: 0 <= j < |db.orders| ==>
         && t.orders[j].items == db.orders[j].items && t.orders[j].coupon == db.orders[j].coupon
         && Live(t.orders[j]) == Live(db.orders[j])
  }

  lemma {:induction false} SameHoldings(a: seq<Order>, b: seq<Order>, slot: Slot)
    requires |a| == |b| && forall j :: 0 <= j < |a| ==> a[j].items == b[j].items && Live(a[j]) == Live(b[j])
    ensures Holdings(a, slot) == Holdings(b, slot)
  {
    if a != [] {
      SameHoldings(a[1..], b[1..], slot);
    }
  }

  lemma {:induction false} SameUses(a: seq<Order>, b: seq<Order>, coupon: Id)
    requires |a| == |b| && forall j :: 0 <= j < |a| ==> a[j].coupon == b[j].coupon && Live(a[j]) == Live(b[j])
    ensures Uses(a, coupon) == Uses(b, coupon)
  {
    if a != [] {
      SameUses(a[1..], b[1..], coupon);
    }
  }

  lemma {:induction false} UnmovedKeeps(db: Db, t: Db)
    requires Unmoved(db, t)
    ensures StockKept(db, t)
    ensures CountsTrue(db) ==> CountsTrue(t)
  {
    forall slot | slot in db.shelf ensures Holdings(t.orders, slot) == Holdings(db.orders, slot) {
      SameHoldings(db.orders, t.orders, slot);
    }
    if CountsTrue(db) {
      forall c | c in db.coupons ensures t.coupons[c].used == Uses(t.orders, c) {
        SameUses(db.orders, t.orders, c);
      }
      forall o | o in t.orders && o.coupon.Some? ensures o.coupon.value in t.coupons {
        var j :| 0 <= j < |t.orders| && t.orders[j] == o;
        assert db.orders[j] in db.orders;
      }
    }
  }

  /** Closed orders stay closed, so a handler that cancels nothing leaves every order live or not as it was. */
  lemma {:induction false} AsideUnmoved(db: Db, t: Db)
    requires Aside(db, t) && Grows(db, t)
    ensures Unmoved(db, t)
  {
    forall j | 0 <= j < |db.orders| ensures Live(t.orders[j]) == Live(db.orders[j]) {
      assert SameSale(db.orders[j], t.orders[j]) && Evolves(db.orders[j], t.orders[j]);
    }
  }

  // ---- Placing an order -----------------------------------------------------------------------------

  lemma {:induction false} PlaceKeepsStock(db: Db, b: Basket, allowed: set<Method>, now: int)
    requires db.store.tracks && !db.store.digital && Create(db, b, allowed, now).Some?
    ensures StockKept(db, Create(db, b, allowed, now).value)
  {
    var t := Create(db, b, allowed, now).value;
    var priced := PriceOrder(db, b, now).value;
    var o := NewOrder(db.store, b, priced.0, priced.1, now);
    ReserveTakes(db.shelf, HeldBy(priced.0), t.shelf);
    forall slot | slot in db.shelf
      ensures t.shelf[slot] + Holdings(t.orders, slot) == db.shelf[slot] + Holdings(db.orders, slot)
    {
      HoldingsAppend(db.orders, o, slot);
    }
  }

  lemma {:induction false} PlaceKeepsCounts(db: Db, b: Basket, allowed: set<Method>, now: int)
    requires CountsTrue(db) && Create(db, b, allowed, now).Some?
    ensures CountsTrue(Create(db, b, allowed, now).value)
  {
    var t := Create(db, b, allowed, now).value;
    var o := t.orders[|db.orders|];
    assert t.orders == db.orders + [o] && o.coupon == b.coupon && Live(o);
    assert t.coupons.Keys == db.coupons.Keys;
    forall c | c in t.coupons
      ensures t.coupons[c].used == Uses(t.orders, c)
      ensures t.coupons[c].limit.Some? ==> t.coupons[c].used <= t.coupons[c].limit.value
    {
      UsesAppend(db.orders, o, c);
    }
  }

  // ---- Cancelling -----------------------------------------------------------------------------------

  lemma {:induction false} CancelKeepsStock(db: Db, i: nat, p: Order)
    requires i < |db.orders| && Live(db.orders[i]) && !Live(p)
    ensures StockKept(db, FreeOrder(db, db.orders[i], true).(orders := db.orders[i := p]))
  {
    ReleaseGives(db.shelf, HeldBy(db.orders[i].items));
    var t := FreeOrder(db, db.orders[i], true).(orders := db.orders[i := p]);
    forall slot | slot in db.shelf
      ensures t.shelf[slot] + Holdings(t.orders, slot) == db.shelf[slot] + Holdings(db.orders, slot)
    {
      HoldingsUpdate(db.orders, i, p, slot);
    }
  }

  lemma {:induction false} OneUseCounted(orders: seq<Order>, i: nat, coupon: Id)
    requires i < |orders|
    ensures Uses(orders, coupon) >= UseOn(orders[i], coupon)
  {
    if i > 0 {
      OneUseCounted(orders[1..], i - 1, coupon);
    }
  }

  /** The guard on giving a use back never blocks a live order's use: the counter is at least one. */
  lemma {:induction false} GuardNeverBlocks(db: Db, i: nat)
    requires CountsTrue(db) && i < |db.orders| && Live(db.orders[i]) && db.orders[i].coupon.Some?
    ensures var c := db.orders[i].coupon.value;
            && c in db.coupons && db.coupons[c].used > 0
            && GiveBackUse(db.coupons, Some(c)) == db.coupons[c := db.coupons[c].(used := db.coupons[c].used - 1)]
  {
    assert db.orders[i] in db.orders;
    OneUseCounted(db.orders, i, db.orders[i].coupon.value);
  }

  lemma {:induction false} CancelKeepsCounts(db: Db, i: nat, p: Order, stock: bool)
    requires CountsTrue(db) && i < |db.orders| && Live(db.orders[i]) && !Live(p) && p.coupon == db.orders[i].coupon
    ensures CountsTrue(FreeOrder(db, db.orders[i], stock).(orders := db.orders[i := p]))
  {
    var o := db.orders[i];
    var t := FreeOrder(db, o, stock).(orders := db.orders[i := p]);
    if o.coupon.Some? {
      GuardNeverBlocks(db, i);
    }
    assert t.coupons.Keys == db.coupons.Keys;
    forall c | c in t.coupons
      ensures t.coupons[c].used == Uses(t.orders, c)
      ensures t.coupons[c].limit.Some? ==> t.coupons[c].used <= t.coupons[c].limit.value
    {
      UsesUpdate(db.orders, i, p, c);
    }
    forall x | x in t.orders && x.coupon.Some? ensures x.coupon.value in t.coupons {
      assert db.orders[i] in db.orders;
    }
  }

  // ---- Editing --------------------------------------------------------------------------------------

  lemma {:induction false} ShelfMovedKeeps(db: Db, t: Db, i: nat)
    requires i < |db.orders| && i < |t.orders| && t.orders == db.orders[i := t.orders[i]]
    requires Live(db.orders[i]) && Live(t.orders[i])
    requires ShelfMoved(db.shelf, t.shelf, HeldBy(db.orders[i].items), HeldBy(t.orders[i].items))
    ensures StockKept(db, t)
  {
    forall slot | slot in db.shelf
      ensures t.shelf[slot] + Holdings(t.orders, slot) == db.shelf[slot] + Holdings(db.orders, slot)
    {
      HoldingsUpdate(db.orders, i, t.orders[i], slot);
    }
  }

  lemma {:induction false} EditKeepsStock(db: Db, i: nat, e: Edit)
    requires db.store.tracks && UpdateDetails(db, i, e).Some?
    ensures StockKept(db, UpdateDetails(db, i, e).value)
  {
    EditFrame(db, i, e);
    if e.wants.None? && e.shipping.None? {
      UnmovedKeeps(db, UpdateDetails(db, i, e).value);
    } else {
      var r, items, shelf := EditWrites(db, i, e);
      RepriceAnswers(db, db.orders[i], e.wants, e.shipping);
      RewriteMovesShelf(db, db.orders[i].items, r);
      ShelfMovedKeeps(db, UpdateDetails(db, i, e).value, i);
    }
  }

  lemma {:induction false} EditKeepsCounts(db: Db, t: Db, i: nat, e: Edit)
    requires CountsTrue(db) && Edited(db, t, i, e)
    ensures CountsTrue(t)
  {
    forall c | c in db.coupons ensures Uses(t.orders, c) == Uses(db.orders, c) {
      UsesUpdate(db.orders, i, t.orders[i], c);
    }
    forall x | x in t.orders && x.coupon.Some? ensures x.coupon.value in t.coupons {
      assert db.orders[i] in db.orders;
    }
  }

  // ---- Every step -----------------------------------------------------------------------------------

  lemma {:induction false} StatusUnmoved(db: Db, i: nat, target: Status, canRefund: bool, accepted: bool)
    requires UpdateStatus(db, i, target, canRefund, accepted).Some? && !GivesBack(db.orders[i].row, target)
    ensures Unmoved(db, UpdateStatus(db, i, target, canRefund, accepted).value)
  {
    StatusSame(db, i, target, canRefund, accepted);
    assert SameSale(db.orders[i], MovedOrder(db.orders[i], target));
  }

  lemma {:induction false} StatusFrees(db: Db, i: nat, target: Status, canRefund: bool, accepted: bool)
    requires i < |db.orders| && GivesBack(db.orders[i].row, target)
    requires UpdateStatus(db, i, target, canRefund, accepted).Some?
    ensures var t := UpdateStatus(db, i, target, canRefund, accepted).value;
            && t == FreeOrder(db, db.orders[i], db.store.tracks).(orders := db.orders[i := MovedOrder(db.orders[i], target)],
                                                                asked := t.asked)
            && !Live(MovedOrder(db.orders[i], target))
            && MovedOrder(db.orders[i], target).coupon == db.orders[i].coupon
  {
  }

  lemma {:induction false} StatusKeepsStock(db: Db, i: nat, target: Status, canRefund: bool, accepted: bool)
    requires db.store.tracks && UpdateStatus(db, i, target, canRefund, accepted).Some?
    ensures StockKept(db, UpdateStatus(db, i, target, canRefund, accepted).value)
  {
    if GivesBack(db.orders[i].row, target) {
      StatusFrees(db, i, target, canRefund, accepted);
      CancelKeepsStock(db, i, MovedOrder(db.orders[i], target));
    } else {
      StatusUnmoved(db, i, target, canRefund, accepted);
      UnmovedKeeps(db, UpdateStatus(db, i, target, canRefund, accepted).value);
    }
  }

  lemma {:induction false} StatusKeepsCounts(db: Db, i: nat, target: Status, canRefund: bool, accepted: bool)
    requires CountsTrue(db) && UpdateStatus(db, i, target, canRefund, accepted).Some?
    ensures CountsTrue(UpdateStatus(db, i, target, canRefund, accepted).value)
  {
    if GivesBack(db.orders[i].row, target) {
      StatusFrees(db, i, target, canRefund, accepted);
      CancelKeepsCounts(db, i, MovedOrder(db.orders[i], target), db.store.tracks);
    } else {
      StatusUnmoved(db, i, target, canRefund, accepted);
      UnmovedKeeps(db, UpdateStatus(db, i, target, canRefund, accepted).value);
    }
  }

  lemma {:induction false} ExpireKeeps(db: Db, i: nat)
    ensures db.store.tracks && !db.store.digital ==> StockKept(db, Expire(db, i))
    ensures CountsTrue(db) ==> CountsTrue(Expire(db, i))
  {
    if i < |db.orders| && Gateway(db.orders[i].row.how) && Abandoned(db.orders[i].row) {
      var o := db.orders[i];
      CancelKeepsStock(db, i, o.(row := Expired(o.row)));
      if CountsTrue(db) {
        CancelKeepsCounts(db, i, o.(row := Expired(o.row)), db.store.tracks && !db.store.digital);
      }
    }
  }

  lemma {:induction false} StepKeepsStock(db: Db, r: Request)
    requires AllOk(db.orders) && db.store.tracks && !db.store.digital
    ensures StockKept(db, Handle(db, r))
  {
    var t := Handle(db, r);
    if NeverMoves(r) {
      StepAside(db, r);
      StepGrows(db, r);
      AsideUnmoved(db, t);
      UnmovedKeeps(db, t);
    } else if r.ExpireOrder? {
      ExpireKeeps(db, r.order);
    } else if t != db {
      match r
      case PlaceOrder(b, allowed, now) => PlaceKeepsStock(db, b, allowed, now);
      case CorrectOrder(i, e) => EditKeepsStock(db, i, e);
      case ChangeStatus(i, target, canRefund, accepted) => StatusKeepsStock(db, i, target, canRefund, accepted);
    }
  }

  lemma {:induction false} StepKeepsCounts(db: Db, r: Request)
    requires AllOk(db.orders) && CountsTrue(db)
    ensures CountsTrue(Handle(db, r))
  {
    var t := Handle(db, r);
    if NeverMoves(r) {
      StepAside(db, r);
      StepGrows(db, r);
      AsideUnmoved(db, t);
      UnmovedKeeps(db, t);
    } else if r.ExpireOrder? {
      ExpireKeeps(db, r.order);
    } else if t != db {
      match r
      case PlaceOrder(b, allowed, now) => PlaceKeepsCounts(db, b, allowed, now);
      case CorrectOrder(i, e) =>
        EditFrame(db, i, e);
        EditKeepsCounts(db, t, i, e);
      case ChangeStatus(i, target, canRefund, accepted) => StatusKeepsCounts(db, i, target, canRefund, accepted);
    }
  }

  // ---- Results over every run -------------------------------------------------------------------------

  lemma {:induction false} RunKeepsStock(db: Db, requests: seq<Request>)
    requires AllOk(db.orders) && db.store.tracks && !db.store.digital
    ensures StockKept(db, Run(db, requests))
    decreases |requests|
  {
    if requests != [] {
      var mid := Handle(db, requests[0]);
      StepKeepsStock(db, requests[0]);
      StepKeepsSettings(db, requests[0]);
      StepGrows(db, requests[0]);
      RunKeepsStock(mid, requests[1..]);
    }
  }

  /**
   * A physical store that tracks inventory: from an empty order book, over every run, each stock row
   * plus what live orders hold of it is what the shelf started with, so no more is ever sold than was
   * there; and no stock row appears or disappears.
   */
  lemma {:induction false} StockIsConserved(db: Db, requests: seq<Request>, slot: Slot)
    requires db.orders == [] && db.store.tracks && !db.store.digital && slot in db.shelf
    ensures var t := Run(db, requests);
            && t.shelf.Keys == db.shelf.Keys
            && t.shelf[slot] + Holdings(t.orders, slot) == db.shelf[slot]
            && Holdings(t.orders, slot) <= db.shelf[slot]
  {
    RunKeepsStock(db, requests);
  }

  lemma {:induction false} RunKeepsCounts(db: Db, requests: seq<Request>)
    requires AllOk(db.orders) && CountsTrue(db)
    ensures CountsTrue(Run(db, requests))
    decreases |requests|
  {
    if requests != [] {
      StepKeepsCounts(db, requests[0]);
      StepGrows(db, requests[0]);
      RunKeepsCounts(Handle(db, requests[0]), requests[1..]);
    }
  }

  /** Over every run a coupon's counter is the number of live orders carrying it, never above its limit. */
  lemma {:induction false} CouponCounts(db: Db, requests: seq<Request>, coupon: Id)
    requires db.orders == [] && coupon in db.coupons
    requires forall c :: c in db.coupons ==> db.coupons[c].used == 0
    ensures var t := Run(db, requests);
            && coupon in t.coupons
            && t.coupons[coupon].used == Uses(t.orders, coupon)
            && (db.coupons[coupon].limit.Some? ==> Uses(t.orders, coupon) <= db.coupons[coupon].limit.value)
  {
    RunKeepsCounts(db, requests);
    RunKeepsSettings(db, requests);
  }

  function Expirations(ids: seq<nat>): seq<Request> {
    seq(|ids|, k requires 0 <= k < |ids| => ExpireOrder(ids[k]))
  }

  /** A whole sweep is a run of single expirations, so every result about runs covers it. */
  lemma {:induction false} SweepIsRun(db: Db, ids: seq<nat>)
    ensures ExpireAll(db, ids) == Run(db, Expirations(ids))
  {
    if ids != [] {
      var n := |ids| - 1;
      SweepIsRun(db, ids[..n]);
      assert Expirations(ids) == Expirations(ids[..n]) + [ExpireOrder(ids[n])];
      RunConcat(db, Expirations(ids[..n]), [ExpireOrder(ids[n])]);
      RunOne(ExpireAll(db, ids[..n]), ExpireOrder(ids[n]));
    }
  }

  lemma {:induction false} RunOne(db: Db, r: Request)
    ensures Run(db, [r]) == Handle(db, r)
  {
    assert [r][1..] == [];
  }

  /** A store that does not track inventory never moves its stock rows. */
  lemma {:induction false} UntrackedStockStays(db: Db, requests: seq<Request>)
    requires !db.store.tracks
    ensures Run(db, requests).shelf == db.shelf
  {
    RunKeepsSettings(db, requests);
  }
}
