/** The order handlers as they run: checks, then writes in place, then either a commit or a rollback. */
module OrdersService {
  import opened Base
  import opened Stock
  import opened Lifecycle
  import opened Domain
  import opened Checkout
  import opened Editing
  import opened EditingLaws
  import opened DigitalDelivery
  import opened OrderStatus
  import opened Tables

  lemma {:induction false} MergedSnoc(entries: seq<Entry>, i: nat)
    requires i < |entries|
    ensures Merged(entries[..i + 1]) == Merge(Merged(entries[..i]), entries[i])
  {
    assert entries[..i + 1][..i] == entries[..i];
  }

  lemma {:induction false} KeptConcat(a: seq<Item>, b: seq<Item>, wanted: seq<Entry>)
    ensures Kept(a + b, wanted) == Kept(a, wanted) + Kept(b, wanted)
  {
    if a == [] {
      assert a + b == b;
    } else {
      assert (a + b)[1..] == a[1..] + b;
      KeptConcat(a[1..], b, wanted);
      Regroup(if Wanted(wanted, a[0]) then [a[0]] else [], Kept(a[1..], wanted), Kept(b, wanted));
    }
  }

  lemma {:induction false} RemovedConcat(a: seq<Item>, b: seq<Item>, wanted: seq<Entry>)
    ensures Removed(a + b, wanted) == Removed(a, wanted) + Removed(b, wanted)
  {
    if a == [] {
      assert a + b == b;
    } else {
      assert (a + b)[1..] == a[1..] + b;
      RemovedConcat(a[1..], b, wanted);
      Regroup(if Wanted(wanted, a[0]) then [] else [a[0]], Removed(a[1..], wanted), Removed(b, wanted));
    }
  }

  lemma {:induction false} OneLine(item: Item, wanted: seq<Entry>)
    ensures Kept([item], wanted) == if Wanted(wanted, item) then [item] else []
    ensures Removed([item], wanted) == if Wanted(wanted, item) then [] else [item]
  {
    assert [item][1..] == [];
  }

  lemma {:induction false} KeptSnoc(items: seq<Item>, wanted: seq<Entry>, i: nat)
    requires i < |items|
    ensures Kept(items[..i + 1], wanted) ==
            Kept(items[..i], wanted) + if Wanted(wanted, items[i]) then [items[i]] else []
  {
    assert items[..i + 1] == items[..i] + [items[i]];
    KeptConcat(items[..i], [items[i]], wanted);
    OneLine(items[i], wanted);
  }

  lemma {:induction false} RemovedSnoc(items: seq<Item>, wanted: seq<Entry>, i: nat)
    requires i < |items|
    ensures Removed(items[..i + 1], wanted) ==
            Removed(items[..i], wanted) + if Wanted(wanted, items[i]) then [] else [items[i]]
  {
    assert items[..i + 1] == items[..i] + [items[i]];
    RemovedConcat(items[..i], [items[i]], wanted);
    OneLine(items[i], wanted);
  }

  lemma {:induction false} RemovedHeldSnoc(items: seq<Item>, wanted: seq<Entry>, i: nat)
    requires i < |items|
    ensures HeldBy(Removed(items[..i + 1], wanted)) ==
            HeldBy(Removed(items[..i], wanted)) + if Wanted(wanted, items[i]) then [] else Held(items[i])
  {
    RemovedSnoc(items, wanted, i);
    HeldByConcat(Removed(items[..i], wanted), [items[i]]);
    var one := [items[i]];
    assert one[1..] == [] && HeldBy(one) == Held(items[i]) + [];
    assert Removed(items[..i], wanted) + [] == Removed(items[..i], wanted);
  }

  class Service {
    const db: Database

    constructor (db: Database)
      ensures this.db == db
    {
      this.db := db;
    }

    // ---- create -------------------------------------------------------------------------------------

    method PlaceOrder(b: Basket, allowed: set<Method>, now: int) returns (ok: bool)
      modifies db
      ensures ok == Create(old(db.State()), b, allowed, now).Some?
      ensures db.State() == Create(old(db.State()), b, allowed, now).GetOr(old(db.State()))
    {
      var saved := db.State();
      ok := TryPlace(b, allowed, now);
      if !ok {
        db.Rollback(saved);
      }
    }

    method TryPlace(b: Basket, allowed: set<Method>, now: int) returns (ok: bool)
      modifies db
      ensures ok ==> Create(old(db.State()), b, allowed, now) == Some(db.State())
      ensures !ok ==> Create(old(db.State()), b, allowed, now).None?
    {
      if b.how !in allowed || (b.how == Zelle && !db.store.zelle) {
        return false;
      }
      if db.store.digital && !DigitalBasketOk(b) {
        return false;
      }
      var priced := PriceOrder(db.State(), b, now);
      if priced.None? {
        return false;
      }
      if db.store.tracks && !db.store.digital {
        var taken := db.ReserveStock(HeldBy(priced.value.0));
        if !taken {
          return false;
        }
      }
      if b.coupon.Some? {
        var redeemed := RedeemCoupon(db.coupons, b.coupon.value);
        if redeemed.None? {
          return false;
        }
        db.coupons := redeemed.value;
      }
      db.orders := db.orders + [NewOrder(db.store, b, priced.value.0, priced.value.1, now)];
      ok := ChannelOpen(db.store, b.how);
    }

    // ---- updateStatus -------------------------------------------------------------------------------

    method ChangeStatus(i: nat, target: Status, canRefund: bool, accepted: bool) returns (ok: bool)
      modifies db
      ensures ok == UpdateStatus(old(db.State()), i, target, canRefund, accepted).Some?
      ensures db.State() == UpdateStatus(old(db.State()), i, target, canRefund, accepted).GetOr(old(db.State()))
    {
      var saved := db.State();
      ok := TryChange(i, target, canRefund, accepted);
      if !ok {
        db.Rollback(saved);
      }
    }

    /** Cancelling frees stock and the coupon use. */
    method FreeWhatItTook(order: Order)
      modifies db`shelf, db`coupons
      ensures db.State() == FreeOrder(old(db.State()), order, db.store.tracks)
    {
      if db.store.tracks {
        db.ReleaseStock(HeldBy(order.items));
      }
      db.coupons := GiveBackUse(db.coupons, order.coupon);
    }

    method TryChange(i: nat, target: Status, canRefund: bool, accepted: bool) returns (ok: bool)
      modifies db
      ensures ok ==> UpdateStatus(old(db.State()), i, target, canRefund, accepted) == Some(db.State())
      ensures !ok ==> UpdateStatus(old(db.State()), i, target, canRefund, accepted).None?
    {
      if i >= |db.orders| || !MayMove(db.orders[i].row, target) {
        return false;
      }
      var order := db.orders[i];
      if (ReturnsMoney(order.row, target) || target == Refunded) && !canRefund {
        return false;
      }
      // The claim comes first, so nothing below runs for a transition that was not won.
      db.orders := db.orders[i := order.(row := Moved(order.row, db.orders[i].row, target))];
      if Terminal(target) && order.row.pay == Paid {
        db.orders := db.orders[i := Revoke(db.orders[i])];
      }
      assert db.orders == old(db.orders)[i := MovedOrder(order, target)];
      if GivesBack(order.row, target) {
        FreeWhatItTook(order);
      }
      // The provider is asked last: its failure rolls the whole request back.
      var back := RefundOnMove(order.row, target);
      if back.Some? {
        if !accepted {
          return false;
        }
        db.asked := db.asked + {(order.row.how, back.value)};
      }
      ok := true;
    }

    // ---- updateDetails ------------------------------------------------------------------------------

    /** Merges repeated lines into a growing list. */
    method MergeLines(entries: seq<Entry>) returns (wanted: seq<Entry>)
      ensures wanted == Merged(entries)
    {
      wanted := [];
      for i := 0 to |entries|
        invariant wanted == Merged(entries[..i])
      {
        MergedSnoc(entries, i);
        var e := entries[i];
        var at := Find(wanted, e.key);
        if at < |wanted| {
          wanted := wanted[at := Entry(e.key, wanted[at].quantity + e.quantity)];
        } else {
          wanted := wanted + [e];
        }
      }
      assert entries[..|entries|] == entries;
    }

    /** Updates changed lines and creates new ones, noting what each asks of the shelf. */
    method WriteLines(items: seq<Item>, changes: seq<Change>) returns (w: Work)
      requires Aimed(items, changes)
      ensures w == ApplyAll(db.shelf, items, changes)
    {
      w := Work(items, [], [], []);
      for k := 0 to |changes|
        invariant Aimed(items, changes[..k])
        invariant w == ApplyAll(db.shelf, items, changes[..k])
      {
        assert changes[k] in changes;
        assert changes[..k + 1][..k] == changes[..k];
        w := Apply(db.shelf, items, w, changes[k]);
      }
      assert changes[..|changes|] == changes;
    }

    /** Deletes the lines no longer wanted, noting what they give back. */
    method DeleteLines(items: seq<Item>, written: seq<Item>, wanted: seq<Entry>)
      returns (kept: seq<Item>, freed: seq<Demand>)
      requires |written| == |items|
      ensures kept == Kept(written, wanted) && freed == HeldBy(Removed(items, wanted))
    {
      kept, freed := [], [];
      for k := 0 to |items|
        invariant kept == Kept(written[..k], wanted) && freed == HeldBy(Removed(items[..k], wanted))
      {
        KeptSnoc(written, wanted, k);
        RemovedHeldSnoc(items, wanted, k);
        if Wanted(wanted, written[k]) {
          kept := kept + [written[k]];
        }
        if !Wanted(wanted, items[k]) {
          freed := freed + Held(items[k]);
        }
      }
      assert written[..|items|] == written && items[..|items|] == items;
    }

    /** Writes the changed, new and removed lines, then moves stock by the differences. */
    method ApplyItemChanges(items: seq<Item>, r: Repriced) returns (ok: bool, now: seq<Item>)
      requires Aimed(items, r.changes)
      modifies db`shelf
      ensures ok ==> Rewrite(old(db.State()), items, r) == Some((now, db.shelf))
      ensures !ok ==> Rewrite(old(db.State()), items, r).None?
    {
      var w := WriteLines(items, r.changes);
      var kept, freed := DeleteLines(items, w.items, r.wanted);
      now := kept + w.added;
      ok := true;
      if db.store.tracks {
        ok := db.ReserveStock(w.take);
        if ok {
          db.ReleaseStock(w.give + freed);
        }
      }
    }

    method CorrectOrder(i: nat, e: Edit) returns (ok: bool)
      modifies db
      ensures ok == UpdateDetails(old(db.State()), i, e).Some?
      ensures db.State() == UpdateDetails(old(db.State()), i, e).GetOr(old(db.State()))
    {
      var saved := db.State();
      ok := TryCorrect(i, e);
      if !ok {
        db.Rollback(saved);
      }
    }

    /** Lines, totals and stock of an edit; the order row itself is written afterwards. */
    method ReworkLines(order: Order, e: Edit) returns (ok: bool, next: Order)
      modifies db`shelf
      ensures ok ==> Rework(old(db.State()), order, e) == Some((next, db.shelf))
      ensures !ok ==> Rework(old(db.State()), order, e).None?
    {
      if e.wants.None? && e.shipping.None? {
        return true, order;
      }
      var wanted := MergeLines(Requested(order.items, e.wants));
      var r := RepriceLines(db.State(), order, wanted, e.shipping);
      if r.None? || (CardOrder(order.row.how) && order.row.pay == Paid && r.value.totals.grand != order.totals.grand) {
        return false, order;
      }
      var written, items := ApplyItemChanges(order.items, r.value);
      if !written {
        return false, order;
      }
      return true, order.(items := items, totals := r.value.totals, shipping := r.value.shipping);
    }

    method TryCorrect(i: nat, e: Edit) returns (ok: bool)
      modifies db
      ensures ok ==> UpdateDetails(old(db.State()), i, e) == Some(db.State())
      ensures !ok ==> UpdateDetails(old(db.State()), i, e).None?
    {
      if i >= |db.orders| || Terminal(db.orders[i].row.status) {
        return false;
      }
      var order := db.orders[i];
      var row := Repaid(order.row, e.paid);
      if row.None? {
        return false;
      }
      var done, next := ReworkLines(order, e);
      if !done {
        return false;
      }
      db.orders := db.orders[i := next.(row := row.value)];
      ok := true;
    }
  }
}
