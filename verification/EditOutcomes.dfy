/** What an edit comes to: when it is refused, which lines it leaves, and at which prices. */
module EditOutcomes {
  import opened Base
  import opened Pricing
  import opened Stock
  import opened Lifecycle
  import opened Domain
  import opened Checkout
  import opened Editing
  import opened EditingLaws
  import opened EditingTotals
  import opened OrderTotals
  import opened CheckoutLaws

  // ---- What the request asks of each line -------------------------------------------------------------

  /** All that a request asks for one product and variant, repeated lines added up. */
  function Requests(entries: seq<Entry>, key: Key): nat {
    if entries == [] then 0
    else
      var n := |entries| - 1;
      Requests(entries[..n], key) + if entries[n].key == key then entries[n].quantity else 0
  }

  function QuantityIn(list: seq<Entry>, key: Key): nat {
    var k := Find(list, key);
    if k < |list| then list[k].quantity else 0
  }

  lemma {:induction false} OneMerged(list: seq<Entry>, e: Entry, key: Key)
    requires DistinctKeys(list)
    ensures QuantityIn(Merge(list, e), key) == QuantityIn(list, key) + if e.key == key then e.quantity else 0
    ensures Find(Merge(list, e), key) < |Merge(list, e)| <==> Find(list, key) < |list| || e.key == key
  {
    var merged := Merge(list, e);
    var k, m := Find(list, key), Find(merged, key);
    if k < |list| {
      assert merged[k].key == key;
    }
    if e.key == key {
      assert merged[Find(list, e.key)].key == key;
    }
  }

  /** Merging adds up repeated lines: each key keeps all that was asked for it, and only asked keys appear. */
  lemma {:induction false} MergedAddsUp(entries: seq<Entry>, key: Key)
    ensures QuantityIn(Merged(entries), key) == Requests(entries, key)
    ensures Find(Merged(entries), key) < |Merged(entries)| <==> exists i :: 0 <= i < |entries| && entries[i].key == key
  {
    if entries != [] {
      var n := |entries| - 1;
      MergedAddsUp(entries[..n], key);
      MergedDistinct(entries[..n]);
      OneMerged(Merged(entries[..n]), entries[n], key);
      assert forall i :: 0 <= i < n ==> entries[..n][i] == entries[i];
    }
  }

  // ---- The lines it leaves ----------------------------------------------------------------------------

  /** The line goes on selling a line the order had, at that line's own price and rates. */
  predicate Continues(was: Item, x: Item) {
    x.product == was.product && x.variant == was.variant && x.unit == was.unit && x.rates == was.rates
  }

  /** Carried over from a line the order had, or new and sold as the catalogue has it now. */
  ghost predicate Sourced(catalogue: map<Id, Product>, items: seq<Item>, x: Item) {
    || (exists i :: 0 <= i < |items| && Continues(items[i], x))
    || (x.product.Some? && SoldAs(catalogue, Want(x.product.value, x.variant, x.quantity), x)
        && forall i :: 0 <= i < |items| ==> KeyOf(items[i]) != KeyOf(x))
  }

  lemma {:induction false} OfferSells(catalogue: map<Id, Product>, w: Want)
    ensures Offer(catalogue, w).Some? <==>
              w.product in catalogue && (w.variant.Some? ==> w.variant.value in catalogue[w.product].variants)
    ensures Offer(catalogue, w).Some? ==> SoldAs(catalogue, w, Offer(catalogue, w).value)
  {
  }

  /** The request can be met for this key: the order has such a line, or the catalogue sells it. */
  ghost predicate Known(catalogue: map<Id, Product>, items: seq<Item>, key: Key) {
    || (exists i :: 0 <= i < |items| && KeyOf(items[i]) == key)
    || (key.product.Some? && key.product.value in catalogue
        && (key.variant.Some? ==> key.variant.value in catalogue[key.product.value].variants))
  }

  ghost predicate AllKnown(catalogue: map<Id, Product>, items: seq<Item>, entries: seq<Entry>) {
    forall k :: 0 <= k < |entries| ==> Known(catalogue, items, entries[k].key)
  }

  lemma {:induction false} ChangeForSources(catalogue: map<Id, Product>, items: seq<Item>, e: Entry)
    ensures ChangeFor(catalogue, items, e).Some? <==> Known(catalogue, items, e.key)
    ensures ChangeFor(catalogue, items, e).Some? ==> Sourced(catalogue, items, ChangeFor(catalogue, items, e).value.item)
  {
    if LastIndex(items, e.key).None? && e.key.product.Some? {
      OfferSells(catalogue, Want(e.key.product.value, e.key.variant, e.quantity));
    } else if LastIndex(items, e.key).Some? {
      var i := LastIndex(items, e.key).value;
      assert Continues(items[i], Requantify(items[i], e.quantity));
    }
  }

  lemma {:induction false} AllKnownSnoc(catalogue: map<Id, Product>, items: seq<Item>, entries: seq<Entry>)
    requires entries != []
    ensures var n := |entries| - 1;
            AllKnown(catalogue, items, entries) <==>
            AllKnown(catalogue, items, entries[..n]) && Known(catalogue, items, entries[n].key)
  {
    var n := |entries| - 1;
    assert forall k :: 0 <= k < n ==> entries[..n][k] == entries[k];
  }

  ghost predicate AllSourced(catalogue: map<Id, Product>, items: seq<Item>, changes: seq<Change>) {
    forall k :: 0 <= k < |changes| ==> Sourced(catalogue, items, changes[k].item)
  }

  lemma {:induction false} ChangesSourced(catalogue: map<Id, Product>, items: seq<Item>, wanted: seq<Entry>)
    ensures Changes(catalogue, items, wanted).Some? <==> AllKnown(catalogue, items, wanted)
    ensures Changes(catalogue, items, wanted).Some? ==>
              var changes := Changes(catalogue, items, wanted).value;
              |changes| == |wanted| && AllSourced(catalogue, items, changes)
  {
    if wanted != [] {
      var n := |wanted| - 1;
      ChangesSourced(catalogue, items, wanted[..n]);
      ChangeForSources(catalogue, items, wanted[n]);
      AllKnownSnoc(catalogue, items, wanted);
    }
  }

  /** Where one of the lines after the edit comes from. */
  lemma {:induction false} LineSource(shelf: Shelf, items: seq<Item>, r: Repriced, x: Item)
    requires Answers(items, r.wanted, r.changes) && DistinctKeys(r.wanted) && Aimed(items, r.changes)
    requires x in NewItems(shelf, items, r)
    ensures || (exists k :: 0 <= k < |r.changes| && r.changes[k].item == x)
            || x in items
  {
    var w := ApplyAll(shelf, items, r.changes);
    if x in w.added {
      AddedFromChanges(shelf, items, r.changes, x);
    } else {
      KeptAmong(w.items, r.wanted, x);
      var i :| 0 <= i < |w.items| && w.items[i] == x;
      if k :| 0 <= k < |r.changes| && r.changes[k].at == Some(i) {
        Rewritten(shelf, items, r.wanted, r.changes, k);
      } else {
        Untouched(shelf, items, r.changes, i);
      }
    }
  }

  lemma {:induction false} NewItemsSourced(db: Db, items: seq<Item>, r: Repriced)
    requires Changes(db.catalogue, items, r.wanted) == Some(r.changes) && DistinctKeys(r.wanted)
    requires Answers(items, r.wanted, r.changes) && Aimed(items, r.changes)
    ensures forall x :: x in NewItems(db.shelf, items, r) ==> Sourced(db.catalogue, items, x)
  {
    ChangesSourced(db.catalogue, items, r.wanted);
    forall x | x in NewItems(db.shelf, items, r) ensures Sourced(db.catalogue, items, x) {
      LineSource(db.shelf, items, r, x);
      if x in items {
        var i :| 0 <= i < |items| && items[i] == x;
        assert Continues(items[i], x);
      }
    }
  }

  /** Every line after any edit goes on at its old price, or is new and sold as the catalogue has it now. */
  lemma {:induction false} EditedLinesSourced(db: Db, i: nat, e: Edit)
    requires UpdateDetails(db, i, e).Some?
    ensures var t := UpdateDetails(db, i, e).value;
            && i < |t.orders|
            && forall x :: x in t.orders[i].items ==> Sourced(db.catalogue, db.orders[i].items, x)
  {
    EditFrame(db, i, e);
    var items := db.orders[i].items;
    if e.wants.Some? || e.shipping.Some? {
      var r, now, shelf := EditWrites(db, i, e);
      RepriceAnswers(db, db.orders[i], e.wants, e.shipping);
      RewriteIsNewItems(db, items, r);
      NewItemsSourced(db, items, r);
    } else {
      forall x | x in items ensures Sourced(db.catalogue, items, x) {
        var k :| 0 <= k < |items| && items[k] == x;
        assert Continues(items[k], x);
      }
    }
  }

  lemma {:induction false} KeptKeeps(items: seq<Item>, wanted: seq<Entry>, i: nat)
    requires i < |items| && Wanted(wanted, items[i])
    ensures items[i] in Kept(items, wanted)
  {
    if i > 0 {
      KeptKeeps(items[1..], wanted, i - 1);
    }
  }

  lemma {:induction false} KeptWanted(items: seq<Item>, wanted: seq<Entry>, x: Item)
    requires x in Kept(items, wanted)
    ensures Wanted(wanted, x)
  {
    if x in Kept(items[1..], wanted) {
      KeptWanted(items[1..], wanted, x);
    }
  }

  lemma {:induction false} NewLineAdded(shelf: Shelf, items: seq<Item>, changes: seq<Change>, k: nat)
    requires Aimed(items, changes) && k < |changes| && changes[k].at.None?
    ensures changes[k].item in ApplyAll(shelf, items, changes).added
  {
    var n := |changes| - 1;
    if k < n {
      NewLineAdded(shelf, items, changes[..n], k);
    }
  }

  /** Entry k of the merged request has its line, at its quantity. */
  lemma {:induction false} EntryHasLine(shelf: Shelf, items: seq<Item>, r: Repriced, k: nat)
    requires Answers(items, r.wanted, r.changes) && DistinctKeys(r.wanted) && Aimed(items, r.changes)
    requires k < |r.wanted|
    ensures exists x :: x in NewItems(shelf, items, r) && KeyOf(x) == r.wanted[k].key && x.quantity == r.wanted[k].quantity
  {
    var w := ApplyAll(shelf, items, r.changes);
    assert AnswersOne(items, r.wanted[k], r.changes[k]);
    if r.changes[k].at.None? {
      NewLineAdded(shelf, items, r.changes, k);
      assert r.changes[k].item in NewItems(shelf, items, r);
    } else {
      var i := r.changes[k].at.value;
      Rewritten(shelf, items, r.wanted, r.changes, k);
      KeysStay(shelf, items, r.wanted, r.changes, i);
      KeptKeeps(w.items, r.wanted, i);
      assert w.items[i] in NewItems(shelf, items, r);
    }
  }

  /** And every line is some entry's, at its quantity, when no line is repeated. */
  lemma {:induction false} LineHasEntry(shelf: Shelf, items: seq<Item>, r: Repriced, x: Item)
    requires Answers(items, r.wanted, r.changes) && DistinctKeys(r.wanted) && Aimed(items, r.changes)
    requires Unrepeated(items) && x in NewItems(shelf, items, r)
    ensures exists k :: 0 <= k < |r.wanted| && KeyOf(x) == r.wanted[k].key && x.quantity == r.wanted[k].quantity
  {
    var w := ApplyAll(shelf, items, r.changes);
    if x in w.added {
      AddedFromChanges(shelf, items, r.changes, x);
      var k :| 0 <= k < |r.changes| && r.changes[k].at.None? && r.changes[k].item == x;
      assert AnswersOne(items, r.wanted[k], r.changes[k]);
    } else {
      KeptAmong(w.items, r.wanted, x);
      KeptWanted(w.items, r.wanted, x);
      var i :| 0 <= i < |w.items| && w.items[i] == x;
      KeysStay(shelf, items, r.wanted, r.changes, i);
      LastIsItself(items, i);
      var k := Find(r.wanted, KeyOf(x));
      assert AnswersOne(items, r.wanted[k], r.changes[k]);
      Rewritten(shelf, items, r.wanted, r.changes, k);
    }
  }

  /** One line for each requested key, and no other, at the sum of what is asked for it. */
  ghost predicate Meets(now: seq<Item>, asked: seq<Entry>, key: Key) {
    && (forall x :: x in now && KeyOf(x) == key ==> x.quantity == Requests(asked, key))
    && ((exists x :: x in now && KeyOf(x) == key) <==> exists k :: 0 <= k < |asked| && asked[k].key == key)
  }

  lemma {:induction false} NewItemsMeet(shelf: Shelf, items: seq<Item>, r: Repriced, asked: seq<Entry>, key: Key)
    requires Answers(items, r.wanted, r.changes) && DistinctKeys(r.wanted) && Aimed(items, r.changes)
    requires Unrepeated(items) && r.wanted == Merged(asked)
    ensures Meets(NewItems(shelf, items, r), asked, key)
  {
    MergedAddsUp(asked, key);
    var at := Find(r.wanted, key);
    forall x | x in NewItems(shelf, items, r) && KeyOf(x) == key
      ensures at < |r.wanted| && x.quantity == r.wanted[at].quantity
    {
      LineHasEntry(shelf, items, r, x);
    }
    if at < |r.wanted| {
      EntryHasLine(shelf, items, r, at);
    }
  }

  /**
   * After an edit of an unrepeated order's lines or shipping, the order has one line for each product
   * and variant the request names, and no other, at the sum of what the request asks for it.
   */
  lemma {:induction false} EditLeavesTheRequest(db: Db, i: nat, e: Edit, key: Key)
    requires UpdateDetails(db, i, e).Some? && (e.wants.Some? || e.shipping.Some?) && Unrepeated(db.orders[i].items)
    ensures var t := UpdateDetails(db, i, e).value;
            && i < |t.orders| && Unrepeated(t.orders[i].items)
            && Meets(t.orders[i].items, Requested(db.orders[i].items, e.wants), key)
  {
    var items := db.orders[i].items;
    var r, now, shelf := EditWrites(db, i, e);
    RepriceAnswers(db, db.orders[i], e.wants, e.shipping);
    RewriteIsNewItems(db, items, r);
    EditKeepsUnrepeated(db.shelf, items, r);
    NewItemsMeet(db.shelf, items, r, Requested(items, e.wants), key);
  }

  // ---- When it is refused -----------------------------------------------------------------------------

  predicate CardPaid(row: Row) {
    (row.how == Stripe || row.how == MercadoPago) && row.pay == Paid
  }

  function SlotOf(key: Key): Option<Slot> {
    if key.variant.Some? then Some(VariantRow(key.variant.value))
    else if key.product.Some? then Some(ProductRow(key.product.value))
    else None
  }

  /** How much more of its line an entry asks for than the order has. */
  function Extra(items: seq<Item>, e: Entry): nat {
    match LastIndex(items, e.key)
    case Some(i) => if e.quantity > items[i].quantity then e.quantity - items[i].quantity else 0
    case None => e.quantity
  }

  function ExtraOf(items: seq<Item>, wanted: seq<Entry>, slot: Slot): nat {
    if wanted == [] then 0
    else
      var n := |wanted| - 1;
      ExtraOf(items, wanted[..n], slot) + if SlotOf(wanted[n].key) == Some(slot) then Extra(items, wanted[n]) else 0
  }

  predicate RowIfNew(shelf: Shelf, items: seq<Item>, key: Key) {
    LastIndex(items, key).None? && SlotOf(key).Some? ==> SlotOf(key).value in shelf
  }

  /** There is a row for every new line, and enough on each row for all that lines grow by. */
  ghost predicate EnoughFor(shelf: Shelf, items: seq<Item>, wanted: seq<Entry>) {
    && (forall k :: 0 <= k < |wanted| ==> RowIfNew(shelf, items, wanted[k].key))
    && forall slot :: slot in shelf ==> ExtraOf(items, wanted, slot) <= shelf[slot]
  }

  /** What one change takes. */
  lemma {:induction false} ChangeTakes(shelf: Shelf, items: seq<Item>, w: Work, e: Entry, c: Change)
      returns (more: seq<Demand>)
    requires AnswersOne(items, e, c) && |w.items| == |items|
    ensures Apply(shelf, items, w, c).take == w.take + more
    ensures forall slot :: slot in shelf ==>
              Asked(more, slot) == if SlotOf(e.key) == Some(slot) then Extra(items, e) else 0
    ensures AllOnShelf(shelf, more) <==> RowIfNew(shelf, items, e.key)
  {
    if c.at.None? {
      more := Held(c.item);
    } else {
      var i := c.at.value;
      if c.item.quantity > items[i].quantity {
        more := Live(shelf, Held(items[i].(quantity := c.item.quantity - items[i].quantity)));
      } else {
        more := [];
        assert w.take + [] == w.take;
      }
    }
  }

  lemma {:induction false} OnShelfConcat(shelf: Shelf, a: seq<Demand>, b: seq<Demand>)
    ensures AllOnShelf(shelf, a + b) <==> AllOnShelf(shelf, a) && AllOnShelf(shelf, b)
  {
    assert forall d :: d in a ==> d in a + b;
    assert forall d :: d in b ==> d in a + b;
  }

  lemma {:induction false} WorkTakes(shelf: Shelf, items: seq<Item>, wanted: seq<Entry>, changes: seq<Change>)
    requires Answers(items, wanted, changes) && DistinctKeys(wanted) && Aimed(items, changes)
    ensures var take := ApplyAll(shelf, items, changes).take;
            && (forall slot :: slot in shelf ==> Asked(take, slot) == ExtraOf(items, wanted, slot))
            && (AllOnShelf(shelf, take) <==> forall k :: 0 <= k < |wanted| ==> RowIfNew(shelf, items, wanted[k].key))
  {
    if changes != [] {
      var n := |changes| - 1;
      var w := ApplyAll(shelf, items, changes[..n]);
      AnswersPrefix(items, wanted, changes);
      WorkTakes(shelf, items, wanted[..n], changes[..n]);
      assert AnswersOne(items, wanted[n], changes[n]);
      var more := ChangeTakes(shelf, items, w, wanted[n], changes[n]);
      forall slot | slot in shelf ensures Asked(w.take + more, slot) == ExtraOf(items, wanted, slot) {
        AskedConcat(w.take, more, slot);
      }
      OnShelfConcat(shelf, w.take, more);
      assert forall k :: 0 <= k < n ==> wanted[..n][k] == wanted[k];
    }
  }

  lemma {:induction false} RewrittenIff(db: Db, items: seq<Item>, r: Repriced)
    requires Answers(items, r.wanted, r.changes) && DistinctKeys(r.wanted) && Aimed(items, r.changes)
    ensures Rewrite(db, items, r).Some? <==> (db.store.tracks ==> EnoughFor(db.shelf, items, r.wanted))
  {
    var take := ApplyAll(db.shelf, items, r.changes).take;
    WorkTakes(db.shelf, items, r.wanted, r.changes);
    ReserveIffEnough(db.shelf, take);
  }

  /** The request names only lines and shipping options there are. */
  ghost predicate Priceable(db: Db, o: Order, e: Edit) {
    && AllKnown(db.catalogue, o.items, Requested(o.items, e.wants))
    && (e.shipping.Some? && e.shipping.value.Some? ==> e.shipping.value.value in db.shippings)
  }

  lemma {:induction false} PriceableIff(db: Db, o: Order, e: Edit)
    ensures Reprice(db, o, e.wants, e.shipping).Some? <==> Priceable(db, o, e)
  {
    var asked := Requested(o.items, e.wants);
    ChangesSourced(db.catalogue, o.items, Merged(asked));
    SameKeysMerged(db.catalogue, o.items, asked);
  }

  lemma {:induction false} SameKeysMerged(catalogue: map<Id, Product>, items: seq<Item>, asked: seq<Entry>)
    ensures AllKnown(catalogue, items, Merged(asked)) <==> AllKnown(catalogue, items, asked)
  {
    var merged := Merged(asked);
    forall k | 0 <= k < |merged| ensures exists j :: 0 <= j < |asked| && asked[j].key == merged[k].key {
      MergedAddsUp(asked, merged[k].key);
    }
    forall j | 0 <= j < |asked| ensures Find(merged, asked[j].key) < |merged| {
      MergedAddsUp(asked, asked[j].key);
    }
    if AllKnown(catalogue, items, merged) {
      forall j | 0 <= j < |asked| ensures Known(catalogue, items, asked[j].key) {
        assert merged[Find(merged, asked[j].key)].key == asked[j].key;
      }
    }
  }

  ghost predicate TotalStays(db: Db, o: Order, e: Edit) {
    var r := Reprice(db, o, e.wants, e.shipping);
    r.Some? ==> r.value.totals.grand == o.totals.grand
  }

  /** Only orders that are not paid by card may have their payment status set, to PAID or PENDING. */
  predicate PaymentSettable(row: Row, paid: Option<bool>) {
    paid.Some? ==> (row.how != Stripe && row.how != MercadoPago) || row.pay == if paid.value then Paid else Unpaid
  }

  /**
   * An edit is refused exactly if the order is closed, its payment status may not be set so, a line or
   * shipping option is unknown, a card payment would no longer be what the order totals, or stock is
   * missing.
   */
  lemma {:induction false} EditedIff(db: Db, i: nat, e: Edit)
    ensures UpdateDetails(db, i, e).Some? <==>
            && i < |db.orders|
            && var o := db.orders[i];
            && o.row.status != Cancelled && o.row.status != Refunded && PaymentSettable(o.row, e.paid)
            && (e.wants.Some? || e.shipping.Some? ==>
                  && Priceable(db, o, e) && (CardPaid(o.row) ==> TotalStays(db, o, e))
                  && (db.store.tracks ==> EnoughFor(db.shelf, o.items, Merged(Requested(o.items, e.wants)))))
  {
    if i < |db.orders| {
      var o := db.orders[i];
      PriceableIff(db, o, e);
      if Priceable(db, o, e) {
        RepriceAnswers(db, o, e.wants, e.shipping);
        RewrittenIff(db, o.items, Reprice(db, o, e.wants, e.shipping).value);
      }
    }
  }

  /** What the edited order would be charged: its new lines, its coupon, and the shipping option it would have. */
  function NewCharge(db: Db, o: Order, e: Edit): int
    requires Reprice(db, o, e.wants, e.shipping).Some?
  {
    var r := Reprice(db, o, e.wants, e.shipping).value;
    var shipping := match e.shipping case None => o.totals.shipping case Some(option) => ShippingCost(db.shippings, option);
    PriceBasket(Lines(NewItems(db.shelf, o.items, r)), DiscountOf(db.coupons, o.coupon), shipping).grand
  }

  /**
   * With the other refusals ruled out, an edit of a well priced order is refused if and only if the
   * order is paid by card and its new lines and shipping come to another total than was paid.
   */
  lemma {:induction false} RefusedIffPaidTotalMoves(db: Db, i: nat, e: Edit)
    requires i < |db.orders| && WellPriced(db.coupons, db.orders[i])
    requires db.orders[i].row.status != Cancelled && db.orders[i].row.status != Refunded
    requires PaymentSettable(db.orders[i].row, e.paid) && (e.wants.Some? || e.shipping.Some?)
    requires Priceable(db, db.orders[i], e)
    requires db.store.tracks ==>
               EnoughFor(db.shelf, db.orders[i].items, Merged(Requested(db.orders[i].items, e.wants)))
    ensures Reprice(db, db.orders[i], e.wants, e.shipping).Some?
    ensures UpdateDetails(db, i, e).None? <==>
              CardPaid(db.orders[i].row) && NewCharge(db, db.orders[i], e) != db.orders[i].totals.grand
  {
    var o := db.orders[i];
    PriceableIff(db, o, e);
    EditedIff(db, i, e);
    RepricedTotals(db, o, e.wants, e.shipping);
    RepriceAnswers(db, o, e.wants, e.shipping);
    ChosenShipping(db, o, e);
  }

  lemma {:induction false} ChosenShipping(db: Db, o: Order, e: Edit)
    requires Reprice(db, o, e.wants, e.shipping).Some?
    ensures Reprice(db, o, e.wants, e.shipping).value.totals.shipping ==
            match e.shipping case None => o.totals.shipping case Some(option) => ShippingCost(db.shippings, option)
    ensures Reprice(db, o, e.wants, e.shipping).value.shipping ==
            match e.shipping case None => o.shipping case Some(option) => option
  {
  }
}
