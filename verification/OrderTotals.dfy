/** The money columns of an order, from its creation through any sequence of edits. */
module OrderTotals {
  import opened Base
  import opened Pricing
  import opened Stock
  import opened Lifecycle
  import opened Domain
  import opened Checkout
  import opened Editing
  import opened EditingLaws
  import opened EditingTotals

  function DiscountOf(coupons: map<Id, Coupon>, coupon: Option<Id>): Option<Discount> {
    if coupon.Some? && coupon.value in coupons then Some(coupons[coupon.value].discount) else None
  }

  function ShippingCost(shippings: map<Id, Shipping>, shipping: Option<Id>): nat {
    if shipping.Some? && shipping.value in shippings then shippings[shipping.value].cost else 0
  }

  /** The stored totals are the pricing of the order's own lines with its own coupon and shipping charge. */
  ghost predicate PricedTotals(coupons: map<Id, Coupon>, o: Order) {
    && (o.coupon.Some? ==> o.coupon.value in coupons)
    && o.totals == PriceBasket(Lines(o.items), DiscountOf(coupons, o.coupon), o.totals.shipping)
  }

  /** So are the amounts of its lines, and no two of them sell the same. */
  ghost predicate WellPriced(coupons: map<Id, Coupon>, o: Order) {
    && Unrepeated(o.items)
    && (forall item :: item in o.items ==> ItemOk(item))
    && PricedTotals(coupons, o)
  }

  // ---- At creation --------------------------------------------------------------------------------

  ghost predicate DistinctWants(wants: seq<Want>) {
    forall i, j :: 0 <= i < j < |wants| ==> KeyOfWant(wants[i]) != KeyOfWant(wants[j])
  }

  lemma {:induction false} ListedItems(catalogue: map<Id, Product>, wants: seq<Want>)
    requires ListedAll(catalogue, wants).Some?
    ensures var items := ListedAll(catalogue, wants).value;
            && |items| == |wants|
            && (forall i :: 0 <= i < |items| ==> KeyOf(items[i]) == KeyOfWant(wants[i]) && ItemOk(items[i]))
  {
    if wants != [] {
      ListedItems(catalogue, wants[1..]);
    }
  }

  lemma {:induction false} DistinctUnrepeated(items: seq<Item>)
    requires forall i, j :: 0 <= i < j < |items| ==> KeyOf(items[i]) != KeyOf(items[j])
    ensures Unrepeated(items)
  {
    if items != [] {
      DistinctUnrepeated(items[1..]);
    }
  }

  lemma {:induction false} UnrepeatedDistinct(items: seq<Item>, i: nat, j: nat)
    requires Unrepeated(items) && i < j < |items|
    ensures KeyOf(items[i]) != KeyOf(items[j])
  {
    if i == 0 {
      assert items[j] == items[1..][j - 1];
    } else {
      UnrepeatedDistinct(items[1..], i - 1, j - 1);
    }
  }

  /** Every order is placed with the pricing of its own lines, repeated or not, and its shipping option's cost. */
  lemma {:induction false} CreatedPriced(db: Db, b: Basket, allowed: set<Method>, now: int)
    requires Create(db, b, allowed, now).Some?
    ensures var after := Create(db, b, allowed, now).value;
            && |after.orders| == |db.orders| + 1
            && var o := after.orders[|db.orders|];
            && PricedTotals(after.coupons, o) && o.totals.shipping == ShippingCost(db.shippings, o.shipping)
            && (forall item :: item in o.items ==> ItemOk(item))
  {
    ListedItems(db.catalogue, b.wants);
  }

  /** And without repeats if the basket has none. */
  lemma {:induction false} CreatedWellPriced(db: Db, b: Basket, allowed: set<Method>, now: int)
    requires DistinctWants(b.wants) && Create(db, b, allowed, now).Some?
    ensures var after := Create(db, b, allowed, now).value;
            && |after.orders| == |db.orders| + 1
            && WellPriced(after.coupons, after.orders[|db.orders|])
  {
    CreatedPriced(db, b, allowed, now);
    ListedItems(db.catalogue, b.wants);
    DistinctUnrepeated(ListedAll(db.catalogue, b.wants).value);
  }

  // ---- Through one edit ---------------------------------------------------------------------------

  lemma {:induction false} ChangesWellPriced(catalogue: map<Id, Product>, items: seq<Item>, wanted: seq<Entry>, k: nat)
    requires Changes(catalogue, items, wanted).Some? && k < |wanted|
    ensures |Changes(catalogue, items, wanted).value| == |wanted|
    ensures ItemOk(Changes(catalogue, items, wanted).value[k].item)
  {
    var n := |wanted| - 1;
    ChangesAim(catalogue, items, wanted);
    ChangesAim(catalogue, items, wanted[..n]);
    if k < n {
      ChangesWellPriced(catalogue, items, wanted[..n], k);
    }
  }

  lemma {:induction false} KeptAmong(items: seq<Item>, wanted: seq<Entry>, x: Item)
    requires x in Kept(items, wanted)
    ensures x in items
  {
    var rest := Kept(items[1..], wanted);
    if x in rest {
      KeptAmong(items[1..], wanted, x);
    }
  }

  lemma {:induction false} NewItemsOk(db: Db, items: seq<Item>, r: Repriced, x: Item)
    requires Changes(db.catalogue, items, r.wanted) == Some(r.changes) && DistinctKeys(r.wanted)
    requires Answers(items, r.wanted, r.changes) && Aimed(items, r.changes)
    requires forall item :: item in items ==> ItemOk(item)
    requires x in NewItems(db.shelf, items, r)
    ensures ItemOk(x)
  {
    var w := ApplyAll(db.shelf, items, r.changes);
    if x in w.added {
      AddedFromChanges(db.shelf, items, r.changes, x);
      var k :| 0 <= k < |r.changes| && r.changes[k].at.None? && r.changes[k].item == x;
      ChangesWellPriced(db.catalogue, items, r.wanted, k);
    } else {
      KeptAmong(w.items, r.wanted, x);
      var i :| 0 <= i < |w.items| && w.items[i] == x;
      if k :| 0 <= k < |r.changes| && r.changes[k].at == Some(i) {
        Rewritten(db.shelf, items, r.wanted, r.changes, k);
        ChangesWellPriced(db.catalogue, items, r.wanted, k);
      } else {
        Untouched(db.shelf, items, r.changes, i);
      }
      assert items[i] in items;
    }
  }

  /** Reprice's lines answer the merged request. */
  lemma {:induction false} RepriceAnswers(db: Db, o: Order, wants: Option<seq<Want>>, shipping: Option<Option<Id>>)
    requires Reprice(db, o, wants, shipping).Some?
    ensures var r := Reprice(db, o, wants, shipping).value;
            && r.wanted == Merged(Requested(o.items, wants))
            && Changes(db.catalogue, o.items, r.wanted) == Some(r.changes)
            && DistinctKeys(r.wanted) && Answers(o.items, r.wanted, r.changes)
  {
    var wanted := Merged(Requested(o.items, wants));
    MergedDistinct(Requested(o.items, wants));
    ChangesAnswer(db.catalogue, o.items, wanted);
  }

  lemma {:induction false} SumsOfNewItems(shelf: Shelf, items: seq<Item>, r: Repriced)
    requires Answers(items, r.wanted, r.changes) && DistinctKeys(r.wanted) && Aimed(items, r.changes)
    requires Unrepeated(items)
    ensures Subtotal(Lines(NewItems(shelf, items, r))) == Subtotal(Lines(ItemsOf(r.changes)))
    ensures Tax(Lines(NewItems(shelf, items, r))) == Tax(Lines(ItemsOf(r.changes)))
  {
    StoredMinusPriced(shelf, items, r);
    AfterKeys(shelf, items, r);
    NoSurplus(ApplyAll(shelf, items, r.changes).items, r.wanted);
    TotalOfLines(NewItems(shelf, items, r));
    TotalOfLines(ItemsOf(r.changes));
  }

  lemma {:induction false} SameSumsSameTotals(a: seq<Line>, b: seq<Line>, coupon: Option<Discount>, shipping: nat)
    requires Subtotal(a) == Subtotal(b) && Tax(a) == Tax(b)
    ensures PriceBasket(a, coupon, shipping) == PriceBasket(b, coupon, shipping)
  {
  }

  lemma {:induction false} PricedFromChanges(db: Db, o: Order, wants: Option<seq<Want>>, shipping: Option<Option<Id>>)
    requires Reprice(db, o, wants, shipping).Some?
    requires o.coupon.Some? ==> o.coupon.value in db.coupons
    requires o.coupon.None? ==> o.totals.discount == 0
    ensures var r := Reprice(db, o, wants, shipping).value;
            && r.totals == PriceBasket(Lines(ItemsOf(r.changes)), DiscountOf(db.coupons, o.coupon), r.totals.shipping)
            && (shipping.None? ==> r.totals.shipping == o.totals.shipping)
  {
  }

  lemma {:induction false} NoCouponNoDiscount(coupons: map<Id, Coupon>, o: Order)
    requires WellPriced(coupons, o)
    ensures o.coupon.None? ==> o.totals.discount == 0
  {
  }

  lemma {:induction false} RepricedTotals(db: Db, o: Order, wants: Option<seq<Want>>, shipping: Option<Option<Id>>)
    requires Reprice(db, o, wants, shipping).Some? && WellPriced(db.coupons, o)
    ensures var r := Reprice(db, o, wants, shipping).value;
            && r.totals == PriceBasket(Lines(NewItems(db.shelf, o.items, r)), DiscountOf(db.coupons, o.coupon),
                                       r.totals.shipping)
            && (shipping.None? ==> r.totals.shipping == o.totals.shipping)
  {
    var r := Reprice(db, o, wants, shipping).value;
    NoCouponNoDiscount(db.coupons, o);
    PricedFromChanges(db, o, wants, shipping);
    RepriceAnswers(db, o, wants, shipping);
    SumsOfNewItems(db.shelf, o.items, r);
    SameSumsSameTotals(Lines(NewItems(db.shelf, o.items, r)), Lines(ItemsOf(r.changes)),
                       DiscountOf(db.coupons, o.coupon), r.totals.shipping);
  }

  /** Written with its new lines and totals, the order is well priced again. */
  lemma {:induction false} RewrittenWellPriced(db: Db, o: Order, e: Edit, r: Repriced, items: seq<Item>, p: Order)
    requires WellPriced(db.coupons, o) && Reprice(db, o, e.wants, e.shipping) == Some(r)
    requires Aimed(o.items, r.changes) && items == NewItems(db.shelf, o.items, r)
    requires p.items == items && p.totals == r.totals && p.coupon == o.coupon
    ensures WellPriced(db.coupons, p)
  {
    RepriceAnswers(db, o, e.wants, e.shipping);
    RepricedTotals(db, o, e.wants, e.shipping);
    EditKeepsUnrepeated(db.shelf, o.items, r);
    forall x | x in items ensures ItemOk(x) {
      NewItemsOk(db, o.items, r, x);
    }
  }

  lemma {:induction false} RewriteIsNewItems(db: Db, items: seq<Item>, r: Repriced)
    requires Aimed(items, r.changes) && Rewrite(db, items, r).Some?
    ensures Rewrite(db, items, r).value.0 == NewItems(db.shelf, items, r)
  {
  }

  /** An edit of a well priced order leaves it well priced, whatever the catalogue says by then. */
  lemma {:induction false} EditWellPriced(db: Db, i: nat, e: Edit)
    requires i < |db.orders| && WellPriced(db.coupons, db.orders[i]) && UpdateDetails(db, i, e).Some?
    ensures var after := UpdateDetails(db, i, e).value;
            && after.coupons == db.coupons && |after.orders| == |db.orders|
            && WellPriced(after.coupons, after.orders[i])
  {
    EditFrame(db, i, e);
    if e.wants.Some? || e.shipping.Some? {
      var r, items, shelf := EditWrites(db, i, e);
      RewriteIsNewItems(db, db.orders[i].items, r);
      RewrittenWellPriced(db, db.orders[i], e, r, items, UpdateDetails(db, i, e).value.orders[i]);
    } else {
      SamePricing(db.coupons, db.orders[i], UpdateDetails(db, i, e).value.orders[i]);
    }
  }

  lemma {:induction false} SamePricing(coupons: map<Id, Coupon>, o: Order, p: Order)
    requires p.items == o.items && p.totals == o.totals && p.coupon == o.coupon
    ensures WellPriced(coupons, o) ==> WellPriced(coupons, p)
    ensures PricedTotals(coupons, o) ==> PricedTotals(coupons, p)
  {
  }

  lemma {:induction false} RepricedShipping(db: Db, o: Order, wants: Option<seq<Want>>, shipping: Option<Option<Id>>)
    requires Reprice(db, o, wants, shipping).Some? && o.totals.shipping == ShippingCost(db.shippings, o.shipping)
    ensures var r := Reprice(db, o, wants, shipping).value; r.totals.shipping == ShippingCost(db.shippings, r.shipping)
  {
  }

  /** The charged shipping stays that of the order's shipping option. */
  lemma {:induction false} EditKeepsShipping(db: Db, i: nat, e: Edit)
    requires i < |db.orders| && UpdateDetails(db, i, e).Some?
    requires db.orders[i].totals.shipping == ShippingCost(db.shippings, db.orders[i].shipping)
    ensures var after := UpdateDetails(db, i, e).value;
            && |after.orders| == |db.orders| && after.shippings == db.shippings
            && after.orders[i].totals.shipping == ShippingCost(db.shippings, after.orders[i].shipping)
  {
    EditFrame(db, i, e);
    if e.wants.Some? || e.shipping.Some? {
      var r, items, shelf := EditWrites(db, i, e);
      RepricedShipping(db, db.orders[i], e.wants, e.shipping);
    }
  }

  // ---- Quantity edits -----------------------------------------------------------------------------

  /** The merged request names exactly the order's lines. */
  ghost predicate SameLines(items: seq<Item>, wanted: seq<Entry>) {
    && (forall i :: 0 <= i < |items| ==> Wanted(wanted, items[i]))
    && (forall k :: 0 <= k < |wanted| ==> LastIndex(items, wanted[k].key).Some?)
  }

  function QuantityFor(wanted: seq<Entry>, item: Item): nat {
    var k := Find(wanted, KeyOf(item));
    if k < |wanted| then wanted[k].quantity else item.quantity
  }

  function Requantified(items: seq<Item>, wanted: seq<Entry>): seq<Item> {
    seq(|items|, i requires 0 <= i < |items| => Requantify(items[i], QuantityFor(wanted, items[i])))
  }

  lemma {:induction false} LastIsItself(items: seq<Item>, i: nat)
    requires Unrepeated(items) && i < |items|
    ensures LastIndex(items, KeyOf(items[i])) == Some(i)
  {
    var j := LastIndex(items, KeyOf(items[i])).value;
    if j < i {
      UnrepeatedDistinct(items, j, i);
    } else if i < j {
      UnrepeatedDistinct(items, i, j);
    }
  }

  lemma {:induction false} KeptAll(items: seq<Item>, wanted: seq<Entry>)
    requires forall i :: 0 <= i < |items| ==> Wanted(wanted, items[i])
    ensures Kept(items, wanted) == items
  {
    if items != [] {
      KeptAll(items[1..], wanted);
    }
  }

  lemma {:induction false} RequantifiedLine(shelf: Shelf, items: seq<Item>, r: Repriced, i: nat)
    requires Answers(items, r.wanted, r.changes) && DistinctKeys(r.wanted) && Aimed(items, r.changes)
    requires Unrepeated(items) && SameLines(items, r.wanted) && i < |items| && ItemOk(items[i])
    ensures ApplyAll(shelf, items, r.changes).items[i] == Requantified(items, r.wanted)[i]
  {
    var k := Find(r.wanted, KeyOf(items[i]));
    LastIsItself(items, i);
    assert Wanted(r.wanted, items[i]) && r.changes[k].at == Some(i);
    Rewritten(shelf, items, r.wanted, r.changes, k);
    assert Requantify(items[i], items[i].quantity) == items[i];
  }

  lemma {:induction false} NothingRemoved(items: seq<Item>, wanted: seq<Entry>)
    requires SameLines(items, wanted)
    ensures Kept(Requantified(items, wanted), wanted) == Requantified(items, wanted)
  {
    var now := Requantified(items, wanted);
    forall i | 0 <= i < |now| ensures Wanted(wanted, now[i]) {
      assert KeyOf(now[i]) == KeyOf(items[i]) && Wanted(wanted, items[i]);
    }
    KeptAll(now, wanted);
  }

  lemma {:induction false} NothingAdded(shelf: Shelf, items: seq<Item>, r: Repriced)
    requires Answers(items, r.wanted, r.changes) && Aimed(items, r.changes) && SameLines(items, r.wanted)
    ensures NewItems(shelf, items, r) == Kept(ApplyAll(shelf, items, r.changes).items, r.wanted)
  {
    var w := ApplyAll(shelf, items, r.changes);
    if w.added != [] {
      AddedFromChanges(shelf, items, r.changes, w.added[0]);
    }
    assert Kept(w.items, r.wanted) + [] == Kept(w.items, r.wanted);
  }

  lemma {:induction false} QuantityEditResult(shelf: Shelf, items: seq<Item>, r: Repriced)
    requires Answers(items, r.wanted, r.changes) && DistinctKeys(r.wanted) && Aimed(items, r.changes)
    requires Unrepeated(items) && SameLines(items, r.wanted) && forall item :: item in items ==> ItemOk(item)
    ensures NewItems(shelf, items, r) == Requantified(items, r.wanted)
  {
    var w := ApplyAll(shelf, items, r.changes);
    forall i | 0 <= i < |items| ensures w.items[i] == Requantified(items, r.wanted)[i] {
      assert items[i] in items;
      RequantifiedLine(shelf, items, r, i);
    }
    assert w.items == Requantified(items, r.wanted);
    NothingRemoved(items, r.wanted);
    NothingAdded(shelf, items, r);
  }

  /** What an edit of order i comes to: its lines and totals, the difference taken from the shelf, and nothing else. */
  ghost predicate Becomes(db: Db, t: Db, i: nat, items: seq<Item>)
    requires i < |db.orders|
  {
    var o := db.orders[i];
    var p := o.(items := items,
                totals := PriceBasket(Lines(items), DiscountOf(db.coupons, o.coupon), o.totals.shipping));
    && t == db.(shelf := t.shelf, orders := db.orders[i := p])
    && (if db.store.tracks then ShelfMoved(db.shelf, t.shelf, HeldBy(o.items), HeldBy(items)) else t.shelf == db.shelf)
  }

  ghost predicate ShelfMoved(before: Shelf, after: Shelf, was: seq<Demand>, now: seq<Demand>) {
    && after.Keys == before.Keys
    && forall slot :: slot in before ==> after[slot] + Asked(now, slot) == before[slot] + Asked(was, slot)
  }

  lemma {:induction false} RewriteMovesShelf(db: Db, items: seq<Item>, r: Repriced)
    requires Answers(items, r.wanted, r.changes) && DistinctKeys(r.wanted) && Aimed(items, r.changes)
    requires Rewrite(db, items, r).Some?
    ensures var after := Rewrite(db, items, r).value;
            if db.store.tracks then ShelfMoved(db.shelf, after.1, HeldBy(items), HeldBy(after.0)) else after.1 == db.shelf
  {
    if db.store.tracks {
      var after := Rewrite(db, items, r).value;
      EditKeys(db, items, r);
      forall slot | slot in db.shelf
        ensures after.1[slot] + Asked(HeldBy(after.0), slot) == db.shelf[slot] + Asked(HeldBy(items), slot)
      {
        EditMovesTheDifference(db, items, r, slot);
      }
    }
  }

  /** The request's quantities alone determine the order after a quantity edit, and the shelf moves by the difference. */
  lemma {:induction false} QuantityEdit(db: Db, i: nat, wants: seq<Want>)
    requires i < |db.orders| && WellPriced(db.coupons, db.orders[i])
    requires SameLines(db.orders[i].items, Merged(Requested(db.orders[i].items, Some(wants))))
    requires UpdateDetails(db, i, Edit(Some(wants), None, None)).Some?
    ensures var o := db.orders[i];
            Becomes(db, UpdateDetails(db, i, Edit(Some(wants), None, None)).value, i,
                    Requantified(o.items, Merged(Requested(o.items, Some(wants)))))
  {
    var r, items, shelf := EditWrites(db, i, Edit(Some(wants), None, None));
    QuantityRepriced(db, db.orders[i], wants, r, items, shelf);
  }

  lemma {:induction false} QuantityRepriced(db: Db, o: Order, wants: seq<Want>, r: Repriced, items: seq<Item>, shelf: Shelf)
    requires WellPriced(db.coupons, o) && SameLines(o.items, Merged(Requested(o.items, Some(wants))))
    requires Reprice(db, o, Some(wants), None) == Some(r) && Aimed(o.items, r.changes)
    requires Rewrite(db, o.items, r) == Some((items, shelf))
    ensures items == Requantified(o.items, Merged(Requested(o.items, Some(wants))))
    ensures r.totals == PriceBasket(Lines(items), DiscountOf(db.coupons, o.coupon), o.totals.shipping)
    ensures r.shipping == o.shipping
    ensures if db.store.tracks then ShelfMoved(db.shelf, shelf, HeldBy(o.items), HeldBy(items)) else shelf == db.shelf
  {
    RepriceAnswers(db, o, Some(wants), None);
    RepricedTotals(db, o, Some(wants), None);
    QuantityEditResult(db.shelf, o.items, r);
    RewriteIsNewItems(db, o.items, r);
    RewriteMovesShelf(db, o.items, r);
  }

  lemma {:induction false} SameKeySameQuantity(wanted: seq<Entry>, item: Item, quantity: nat)
    requires Wanted(wanted, item)
    ensures var mid := Requantify(item, quantity);
            && KeyOf(mid) == KeyOf(item) && Wanted(wanted, mid)
            && QuantityFor(wanted, mid) == QuantityFor(wanted, item)
            && Requantify(mid, QuantityFor(wanted, mid)) == Requantify(item, QuantityFor(wanted, item))
  {
  }

  lemma {:induction false} RequantifiedTwice(items: seq<Item>, first: seq<Entry>, second: seq<Entry>)
    requires SameLines(items, second)
    ensures Requantified(Requantified(items, first), second) == Requantified(items, second)
    ensures SameLines(Requantified(items, first), second)
  {
    var mid := Requantified(items, first);
    forall i | 0 <= i < |items|
      ensures Requantified(mid, second)[i] == Requantified(items, second)[i] && Wanted(second, mid[i])
    {
      SameKeySameQuantity(second, items[i], QuantityFor(first, items[i]));
      assert Wanted(second, items[i]);
    }
    forall k | 0 <= k < |second| ensures LastIndex(mid, second[k].key).Some? {
      SameKeysSameLast(mid, items, second[k].key);
    }
  }

  /** Several quantity edits in a row, each of which must succeed. */
  function EditAll(db: Db, i: nat, edits: seq<seq<Want>>): Option<Db> {
    if edits == [] then Some(db)
    else
      var before :- EditAll(db, i, edits[..|edits| - 1]);
      UpdateDetails(before, i, Edit(Some(edits[|edits| - 1]), None, None))
  }

  /** Every edit names exactly the lines the order has. */
  ghost predicate QuantitiesOnly(items: seq<Item>, edits: seq<seq<Want>>) {
    forall k :: 0 <= k < |edits| ==> SameLines(items, Merged(Requested(items, Some(edits[k]))))
  }

  lemma {:induction false} BecomesTwice(db: Db, mid: Db, t: Db, i: nat, between: seq<Item>, items: seq<Item>)
    requires i < |db.orders| && Becomes(db, mid, i, between) && Becomes(mid, t, i, items)
    ensures Becomes(db, t, i, items)
  {
  }

  /** One more quantity edit, on an order whose lines are the original ones at other quantities. */
  lemma {:induction false} OneMoreEdit(db: Db, mid: Db, t: Db, i: nat, now: seq<Item>, wants: seq<Want>)
    requires i < |db.orders| && i < |mid.orders| && WellPriced(mid.coupons, mid.orders[i]) && mid.orders[i].items == now
    requires var wanted := Merged(Requested(db.orders[i].items, Some(wants)));
             && SameLines(now, wanted) && wanted == Merged(Requested(now, Some(wants)))
             && Requantified(now, wanted) == Requantified(db.orders[i].items, wanted)
    requires mid == db || Becomes(db, mid, i, now)
    requires UpdateDetails(mid, i, Edit(Some(wants), None, None)) == Some(t)
    ensures Becomes(db, t, i, Requantified(db.orders[i].items, Merged(Requested(db.orders[i].items, Some(wants)))))
    ensures WellPriced(t.coupons, t.orders[i])
  {
    var items := Requantified(now, Merged(Requested(now, Some(wants))));
    QuantityEdit(mid, i, wants);
    EditWellPriced(mid, i, Edit(Some(wants), None, None));
    if mid != db {
      BecomesTwice(db, mid, t, i, now, items);
    }
  }

  /** After any number of quantity edits the order has the last one's quantities, as if it had been the only one. */
  lemma {:induction false} QuantityEditsResult(db: Db, i: nat, edits: seq<seq<Want>>)
    requires i < |db.orders| && WellPriced(db.coupons, db.orders[i]) && edits != []
    requires QuantitiesOnly(db.orders[i].items, edits) && EditAll(db, i, edits).Some?
    ensures var items, t := db.orders[i].items, EditAll(db, i, edits).value;
            && Becomes(db, t, i, Requantified(items, Merged(Requested(items, Some(edits[|edits| - 1])))))
            && WellPriced(t.coupons, t.orders[i])
  {
    var n, items := |edits| - 1, db.orders[i].items;
    var init := edits[..n];
    var mid := EditAll(db, i, init).value;
    if n > 0 {
      QuantityEditsResult(db, i, init);
      NextQuantities(items, Merged(Requested(items, Some(init[n - 1]))), edits[n]);
    }
    OneMoreEdit(db, mid, EditAll(db, i, edits).value, i, mid.orders[i].items, edits[n]);
  }

  lemma {:induction false} NextQuantities(items: seq<Item>, first: seq<Entry>, next: seq<Want>)
    requires SameLines(items, Merged(Requested(items, Some(next))))
    ensures var now := Requantified(items, first);
            var wanted := Merged(Requested(now, Some(next)));
            && wanted == Merged(Requested(items, Some(next))) && SameLines(now, wanted)
            && Requantified(now, wanted) == Requantified(items, wanted)
  {
    var now := Requantified(items, first);
    assert Requested(now, Some(next)) == Requested(items, Some(next));
    RequantifiedTwice(items, first, Merged(Requested(items, Some(next))));
  }

  lemma {:induction false} SameShelf(before: Shelf, a: Shelf, b: Shelf, was: seq<Demand>, now: seq<Demand>)
    requires ShelfMoved(before, a, was, now) && ShelfMoved(before, b, was, now)
    ensures a == b
  {
    forall slot | slot in a ensures a[slot] == b[slot] {
      assert slot in before;
    }
  }

  lemma {:induction false} BecomesAlike(db: Db, s: Db, t: Db, i: nat, items: seq<Item>)
    requires i < |db.orders| && Becomes(db, s, i, items) && Becomes(db, t, i, items)
    ensures s == t
  {
    if db.store.tracks {
      SameShelf(db.shelf, s.shelf, t.shelf, HeldBy(db.orders[i].items), HeldBy(items));
    }
  }

  /** So two histories of quantity edits that end alike leave the whole database alike, stock included. */
  lemma {:induction false} QuantityEditsForget(db: Db, i: nat, one: seq<seq<Want>>, other: seq<seq<Want>>)
    requires i < |db.orders| && WellPriced(db.coupons, db.orders[i]) && one != [] && other != []
    requires QuantitiesOnly(db.orders[i].items, one) && QuantitiesOnly(db.orders[i].items, other)
    requires EditAll(db, i, one).Some? && EditAll(db, i, other).Some? && one[|one| - 1] == other[|other| - 1]
    ensures EditAll(db, i, one) == EditAll(db, i, other)
  {
    var items := db.orders[i].items;
    QuantityEditsResult(db, i, one);
    QuantityEditsResult(db, i, other);
    BecomesAlike(db, EditAll(db, i, one).value, EditAll(db, i, other).value, i,
                 Requantified(items, Merged(Requested(items, Some(one[|one| - 1])))));
  }

  // ---- Re-pricing unchanged lines -----------------------------------------------------------------

  lemma {:induction false} MergedAsIs(entries: seq<Entry>)
    requires DistinctKeys(entries)
    ensures Merged(entries) == entries
  {
    if entries != [] {
      MergedAsIs(entries[..|entries| - 1]);
      NotYetWanted(entries);
    }
  }

  lemma {:induction false} OwnLinesWanted(items: seq<Item>)
    requires Unrepeated(items)
    ensures var wanted := Requested(items, None);
            && Merged(wanted) == wanted && SameLines(items, wanted)
            && (forall i :: 0 <= i < |items| ==> QuantityFor(wanted, items[i]) == items[i].quantity)
  {
    var wanted := Requested(items, None);
    forall i, j | 0 <= i < j < |items| ensures wanted[i].key != wanted[j].key {
      UnrepeatedDistinct(items, i, j);
    }
    MergedAsIs(wanted);
    forall i | 0 <= i < |items|
      ensures Wanted(wanted, items[i]) && QuantityFor(wanted, items[i]) == items[i].quantity
    {
      assert wanted[i].key == KeyOf(items[i]);
    }
    forall k | 0 <= k < |wanted| ensures LastIndex(items, wanted[k].key).Some? {
      assert KeyOf(items[k]) == wanted[k].key;
    }
  }

  /** Changes found among the stored lines need nothing from the catalogue. */
  lemma {:induction false} OwnChanges(catalogue: map<Id, Product>, items: seq<Item>, wanted: seq<Entry>)
    requires forall k :: 0 <= k < |wanted| ==> LastIndex(items, wanted[k].key).Some?
    ensures Changes(catalogue, items, wanted).Some?
  {
    if wanted != [] {
      OwnChanges(catalogue, items, wanted[..|wanted| - 1]);
    }
  }

  lemma {:induction false} SameQuantitiesWriteNothing(shelf: Shelf, items: seq<Item>, changes: seq<Change>)
    requires Aimed(items, changes)
    requires forall k :: 0 <= k < |changes| ==>
               changes[k].at.Some? && changes[k].at.value < |items|
               && changes[k].item.quantity == items[changes[k].at.value].quantity
    ensures ApplyAll(shelf, items, changes) == Work(items, [], [], [])
  {
    if changes != [] {
      var n := |changes| - 1;
      assert changes[n] in changes;
      SameQuantitiesWriteNothing(shelf, items, changes[..n]);
    }
  }

  lemma {:induction false} NothingGoes(items: seq<Item>, wanted: seq<Entry>)
    requires forall i :: 0 <= i < |items| ==> Wanted(wanted, items[i])
    ensures Removed(items, wanted) == []
  {
    if items != [] {
      NothingGoes(items[1..], wanted);
    }
  }

  /** A merged request for exactly the stored lines at their quantities. */
  ghost predicate OwnEntries(items: seq<Item>, wanted: seq<Entry>) {
    && SameLines(items, wanted) && DistinctKeys(wanted)
    && forall k :: 0 <= k < |wanted| ==> wanted[k].quantity == items[LastIndex(items, wanted[k].key).value].quantity
  }

  lemma {:induction false} IdleRewrite(db: Db, items: seq<Item>, r: Repriced)
    requires Aimed(items, r.changes) && ApplyAll(db.shelf, items, r.changes) == Work(items, [], [], [])
    requires Kept(items, r.wanted) == items && Removed(items, r.wanted) == []
    ensures NewItems(db.shelf, items, r) == items && Rewrite(db, items, r) == Some((items, db.shelf))
  {
    assert items + [] == items && [] + HeldBy([]) == [];
  }

  lemma {:induction false} OwnEntriesRewriteNothing(db: Db, items: seq<Item>, r: Repriced)
    requires Answers(items, r.wanted, r.changes) && Aimed(items, r.changes) && OwnEntries(items, r.wanted)
    ensures NewItems(db.shelf, items, r) == items && Rewrite(db, items, r) == Some((items, db.shelf))
  {
    forall k | 0 <= k < |r.changes|
      ensures r.changes[k].at.Some? && r.changes[k].at.value < |items|
              && r.changes[k].item.quantity == items[r.changes[k].at.value].quantity
    {
      assert AnswersOne(items, r.wanted[k], r.changes[k]);
    }
    SameQuantitiesWriteNothing(db.shelf, items, r.changes);
    KeptAll(items, r.wanted);
    NothingGoes(items, r.wanted);
    IdleRewrite(db, items, r);
  }

  /** The edit changes nothing by its own terms: the order's own lines or none, its own shipping or none. */
  ghost predicate AsItIs(db: Db, o: Order, e: Edit) {
    && (e.wants.Some? || e.shipping.Some?) && e.paid.None?
    && OwnEntries(o.items, Merged(Requested(o.items, e.wants)))
    && (e.shipping.Some? ==>
          && e.shipping.value == o.shipping && o.totals.shipping == ShippingCost(db.shippings, o.shipping)
          && (o.shipping.Some? ==> o.shipping.value in db.shippings))
  }

  lemma {:induction false} AsItIsReprices(db: Db, o: Order, e: Edit)
    requires WellPriced(db.coupons, o) && AsItIs(db, o, e)
    ensures var r := Reprice(db, o, e.wants, e.shipping);
            && r.Some? && r.value.totals == o.totals && r.value.shipping == o.shipping
            && Rewrite(db, o.items, r.value) == Some((o.items, db.shelf))
  {
    OwnChanges(db.catalogue, o.items, Merged(Requested(o.items, e.wants)));
    var r := Reprice(db, o, e.wants, e.shipping).value;
    RepriceAnswers(db, o, e.wants, e.shipping);
    OwnEntriesRewriteNothing(db, o.items, r);
    RepricedTotals(db, o, e.wants, e.shipping);
  }

  lemma {:induction false} AsItIsReworks(db: Db, o: Order, e: Edit)
    requires WellPriced(db.coupons, o) && AsItIs(db, o, e)
    ensures Rework(db, o, e) == Some((o, db.shelf))
  {
    AsItIsReprices(db, o, e);
    var r := Reprice(db, o, e.wants, e.shipping).value;
    assert o.(items := o.items, totals := r.totals, shipping := r.shipping) == o;
  }

  /**
   * Saving an open order with its own lines, or with its own shipping chosen again at the same cost,
   * succeeds and changes nothing in the database, whatever prices, rates and products the catalogue
   * has by then.
   */
  lemma {:induction false} RepricingIsFixedPoint(db: Db, i: nat, e: Edit, catalogue: map<Id, Product>)
    requires i < |db.orders| && !Terminal(db.orders[i].row.status)
    requires WellPriced(db.coupons, db.orders[i]) && AsItIs(db, db.orders[i], e)
    ensures UpdateDetails(db.(catalogue := catalogue), i, e) == Some(db.(catalogue := catalogue))
  {
    var now := db.(catalogue := catalogue);
    AsItIsReworks(now, now.orders[i], e);
    assert now.orders[i := now.orders[i]] == now.orders;
  }

  /** A request that lists the order's lines in their order, or none, asks for them as they are. */
  lemma {:induction false} OwnLinesAsTheyAre(items: seq<Item>, wants: Option<seq<Want>>)
    requires Unrepeated(items)
    requires wants.Some? ==> |wants.value| == |items| && forall k :: 0 <= k < |items| ==>
                               KeyOfWant(wants.value[k]) == KeyOf(items[k]) && wants.value[k].quantity == items[k].quantity
    ensures OwnEntries(items, Merged(Requested(items, wants)))
  {
    var wanted := Requested(items, None);
    assert Requested(items, wants) == wanted;
    OwnLinesWanted(items);
    MergedDistinct(wanted);
    forall k | 0 <= k < |wanted| ensures wanted[k].quantity == items[LastIndex(items, wanted[k].key).value].quantity {
      LastIsItself(items, k);
    }
  }

  // ---- Repeated lines -----------------------------------------------------------------------------

  function OneUnit(): Item {
    Item(Some(0), None, 100, 1, [], 0, 100)
  }

  function Twice(): seq<Item> {
    [OneUnit(), OneUnit()]
  }

  lemma {:induction false} TwiceMerged()
    ensures Merged(Requested(Twice(), None)) == [Entry(KeyOf(OneUnit()), 2)]
  {
    var e := Entry(KeyOf(OneUnit()), 1);
    var entries := Requested(Twice(), None);
    assert entries == [e, e] && entries[..1] == [e];
    assert [e][..0] == [] && Merged([e]) == [e];
  }

  lemma {:induction false} TwiceChanged(catalogue: map<Id, Product>)
    ensures Changes(catalogue, Twice(), [Entry(KeyOf(OneUnit()), 2)]) ==
            Some([Change(Some(1), Requantify(OneUnit(), 2))])
  {
    var e := Entry(KeyOf(OneUnit()), 2);
    assert Twice()[1..] == [OneUnit()];
    assert LastIndex([OneUnit()], e.key) == Some(0);
    OneChange(catalogue, Twice(), e, Change(Some(1), Requantify(OneUnit(), 2)));
  }

  lemma {:induction false} TwiceStored(shelf: Shelf, r: Repriced)
    requires r.wanted == [Entry(KeyOf(OneUnit()), 2)]
    requires r.changes == [Change(Some(1), Requantify(OneUnit(), 2))]
    ensures NewItems(shelf, Twice(), r) == [OneUnit(), Requantify(OneUnit(), 2)]
  {
    ApplyOne(shelf, Twice(), r.changes[0]);
    var w := ApplyAll(shelf, Twice(), r.changes);
    assert w.items == [OneUnit(), Requantify(OneUnit(), 2)] && w.added == [];
    KeptAll(w.items, r.wanted);
  }

  /** An order placed with the same product on two lines of one unit: after a shipping edit it stores three. */
  lemma {:induction false} RepeatedLinesDrift(db: Db, o: Order, shipping: Option<Id>)
    requires o.items == Twice() && (shipping.Some? ==> shipping.value in db.shippings)
    ensures Reprice(db, o, None, Some(shipping)).Some?
    ensures var r := Reprice(db, o, None, Some(shipping)).value;
            && r.totals.subtotal == 200
            && Total(NewItems(db.shelf, o.items, r)).quantity == 3
            && Subtotal(Lines(NewItems(db.shelf, o.items, r))) == 300
  {
    TwiceMerged();
    TwiceChanged(db.catalogue);
    var r := Reprice(db, o, None, Some(shipping)).value;
    var two := Requantify(OneUnit(), 2);
    assert ItemsOf(r.changes) == [two];
    TwiceStored(db.shelf, r);
    TwoLines(OneUnit(), two);
    TotalOfOne(two);
    TotalOfLines([two]);
    TotalOfLines([OneUnit(), two]);
  }

  lemma {:induction false} OneChange(catalogue: map<Id, Product>, items: seq<Item>, e: Entry, c: Change)
    requires ChangeFor(catalogue, items, e) == Some(c)
    ensures Changes(catalogue, items, [e]) == Some([c])
  {
    var none := [e][..0];
    assert none == [] && Changes(catalogue, items, none) == Some([]);
    assert [] + [c] == [c];
  }

  lemma {:induction false} ApplyOne(shelf: Shelf, items: seq<Item>, c: Change)
    requires Aimed(items, [c])
    ensures ApplyAll(shelf, items, [c]) == Apply(shelf, items, Work(items, [], [], []), c)
  {
    var none := [c][..0];
    assert none == [] && ApplyAll(shelf, items, none) == Work(items, [], [], []);
  }

  lemma {:induction false} TwoLines(a: Item, b: Item)
    ensures Total([a, b]) == Plus(One(a), One(b))
  {
    assert [a, b] == [a] + [b];
    TotalConcat([a], [b]);
    TotalOfOne(a);
    TotalOfOne(b);
  }
}
