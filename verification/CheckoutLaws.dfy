/** What placing an order comes to: when it is refused, what is sold at which price, and what it takes. */
module CheckoutLaws {
  import opened Base
  import opened Stock
  import opened Lifecycle
  import opened Domain
  import opened Checkout
  import opened EditingLaws

  /** The line sells what was wanted at the catalogue's price: the variant's own if one is named. */
  ghost predicate SoldAs(catalogue: map<Id, Product>, w: Want, item: Item) {
    && w.product in catalogue
    && (w.variant.Some? ==> w.variant.value in catalogue[w.product].variants)
    && item.product == Some(w.product) && item.variant == w.variant && item.quantity == w.quantity
    && item.rates == catalogue[w.product].rates
    && item.unit == if w.variant.Some? then catalogue[w.product].variants[w.variant.value] else catalogue[w.product].price
  }

  /** Listed, and with a variant it has, or without one if it has none to choose from. */
  predicate ForSale(catalogue: map<Id, Product>, w: Want) {
    && w.product in catalogue && catalogue[w.product].listed
    && match w.variant
       case Some(v) => v in catalogue[w.product].variants
       case None => !(catalogue[w.product].hasVariants && catalogue[w.product].variants != map[])
  }

  lemma {:induction false} ListedIff(catalogue: map<Id, Product>, w: Want)
    ensures Listed(catalogue, w).Some? <==> ForSale(catalogue, w)
    ensures Listed(catalogue, w).Some? ==> SoldAs(catalogue, w, Listed(catalogue, w).value)
  {
    if w.product in catalogue {
      var variants := catalogue[w.product].variants;
      assert |variants| > 0 <==> variants != map[];
    }
  }

  ghost predicate AllSold(catalogue: map<Id, Product>, wants: seq<Want>, items: seq<Item>) {
    |items| == |wants| && forall k :: 0 <= k < |wants| ==> SoldAs(catalogue, wants[k], items[k])
  }

  lemma {:induction false} ListedAllIff(catalogue: map<Id, Product>, wants: seq<Want>)
    ensures ListedAll(catalogue, wants).Some? <==> forall k :: 0 <= k < |wants| ==> ForSale(catalogue, wants[k])
    ensures ListedAll(catalogue, wants).Some? ==> AllSold(catalogue, wants, ListedAll(catalogue, wants).value)
  {
    if wants != [] {
      ListedIff(catalogue, wants[0]);
      ListedAllIff(catalogue, wants[1..]);
      assert forall k :: 1 <= k < |wants| ==> wants[k] == wants[1..][k - 1];
      if forall k :: 0 <= k < |wants| ==> ForSale(catalogue, wants[k]) {
        assert forall k :: 0 <= k < |wants[1..]| ==> wants[1..][k] == wants[k + 1];
      }
    }
  }

  // ---- Stock ------------------------------------------------------------------------------------------

  function RowOf(w: Want): Slot {
    if w.variant.Some? then VariantRow(w.variant.value) else ProductRow(w.product)
  }

  /** The pieces of one stock row that a basket asks for. */
  function Wished(wants: seq<Want>, slot: Slot): nat {
    if wants == [] then 0 else (if RowOf(wants[0]) == slot then wants[0].quantity else 0) + Wished(wants[1..], slot)
  }

  lemma {:induction false} WishedPieces(catalogue: map<Id, Product>, wants: seq<Want>, items: seq<Item>, slot: Slot)
    requires AllSold(catalogue, wants, items)
    ensures Pieces(items, slot) == Wished(wants, slot)
  {
    if wants != [] {
      assert SoldAs(catalogue, wants[0], items[0]);
      WishedPieces(catalogue, wants[1..], items[1..], slot);
    }
  }

  lemma {:induction false} RowsHeld(catalogue: map<Id, Product>, shelf: Shelf, wants: seq<Want>, items: seq<Item>)
    requires AllSold(catalogue, wants, items)
    ensures AllOnShelf(shelf, HeldBy(items)) <==> forall k :: 0 <= k < |wants| ==> RowOf(wants[k]) in shelf
  {
    if wants != [] {
      assert SoldAs(catalogue, wants[0], items[0]);
      RowsHeld(catalogue, shelf, wants[1..], items[1..]);
      assert HeldBy(items) == [Demand(RowOf(wants[0]), wants[0].quantity)] + HeldBy(items[1..]);
      assert HeldBy(items)[0] in HeldBy(items) && forall d :: d in HeldBy(items[1..]) ==> d in HeldBy(items);
      assert forall k :: 1 <= k < |wants| ==> wants[k] == wants[1..][k - 1];
      if forall k :: 0 <= k < |wants| ==> RowOf(wants[k]) in shelf {
        assert forall k :: 0 <= k < |wants[1..]| ==> wants[1..][k] == wants[k + 1];
      }
    }
  }

  ghost predicate InStock(shelf: Shelf, wants: seq<Want>) {
    && (forall k :: 0 <= k < |wants| ==> RowOf(wants[k]) in shelf)
    && forall slot :: slot in shelf ==> Wished(wants, slot) <= shelf[slot]
  }

  lemma {:induction false} ReservedIff(catalogue: map<Id, Product>, shelf: Shelf, wants: seq<Want>, items: seq<Item>)
    requires AllSold(catalogue, wants, items)
    ensures Reserve(shelf, HeldBy(items)).Some? <==> InStock(shelf, wants)
    ensures Reserve(shelf, HeldBy(items)).Some? ==> Taken(shelf, Reserve(shelf, HeldBy(items)).value, wants)
  {
    ReserveIffEnough(shelf, HeldBy(items));
    RowsHeld(catalogue, shelf, wants, items);
    forall slot ensures Asked(HeldBy(items), slot) == Wished(wants, slot) {
      HeldPieces(items, slot);
      WishedPieces(catalogue, wants, items, slot);
    }
    if Reserve(shelf, HeldBy(items)).Some? {
      ReserveTakes(shelf, HeldBy(items), Reserve(shelf, HeldBy(items)).value);
    }
  }

  ghost predicate Taken(before: Shelf, after: Shelf, wants: seq<Want>) {
    after.Keys == before.Keys && forall slot :: slot in before ==> after[slot] == before[slot] - Wished(wants, slot)
  }

  // ---- The order --------------------------------------------------------------------------------------

  /** The coupon exists, is switched on, is not past its last instant, and has a use left. */
  predicate Redeemable(coupons: map<Id, Coupon>, id: Id, now: int) {
    && id in coupons && coupons[id].active
    && (coupons[id].expiresAt.Some? ==> now <= coupons[id].expiresAt.value)
    && (coupons[id].limit.Some? ==> coupons[id].used < coupons[id].limit.value)
  }

  /**
   * A use is counted exactly if one is left at that moment, whatever was read before; so however many
   * orders redeem a coupon at once, its counter never passes its limit.
   */
  lemma {:induction false} RedeemedIffUseLeft(coupons: map<Id, Coupon>, id: Id)
    ensures var t := RedeemCoupon(coupons, id);
            && (t.Some? <==> id in coupons && (coupons[id].limit == None || coupons[id].used < coupons[id].limit.value))
            && (t.Some? ==> UseCounted(coupons, t.value, Some(id))
                            && (t.value[id].limit.Some? ==> t.value[id].used <= t.value[id].limit.value))
  {
  }

  /** What is checked before pricing: the coupon is switched on, not past its last instant, and has a use left. */
  lemma {:induction false} UsableIff(coupons: map<Id, Coupon>, id: Id, now: int)
    ensures id in coupons && Usable(coupons[id], now) <==> Redeemable(coupons, id, now)
  {
  }

  predicate MethodOpen(store: Store, allowed: set<Method>, how: Method) {
    && how in allowed
    && (how == Zelle ==> store.zelle) && (how == Whatsapp ==> store.whatsapp) && (how == Telegram ==> store.telegram)
  }

  predicate ByMessage(how: Method) {
    how == Whatsapp || how == Telegram
  }

  /** A digital store sells single copies, sent by email, never shipped, never by message. */
  predicate FitsDigital(b: Basket) {
    b.email && !ByMessage(b.how) && b.shipping == None && forall k :: 0 <= k < |b.wants| ==> b.wants[k].quantity == 1
  }

  /** Exactly these requests place an order; all others throw and keep nothing. */
  lemma {:induction false} PlacedIff(db: Db, b: Basket, allowed: set<Method>, now: int)
    ensures Create(db, b, allowed, now).Some? <==>
            && MethodOpen(db.store, allowed, b.how)
            && (db.store.digital ==> FitsDigital(b))
            && (forall k :: 0 <= k < |b.wants| ==> ForSale(db.catalogue, b.wants[k]))
            && (b.coupon.Some? ==> Redeemable(db.coupons, b.coupon.value, now))
            && (b.shipping.Some? ==> b.shipping.value in db.shippings && db.shippings[b.shipping.value].active)
            && (db.store.tracks && !db.store.digital ==> InStock(db.shelf, b.wants))
  {
    ListedAllIff(db.catalogue, b.wants);
    assert DigitalBasketOk(b) <==> FitsDigital(b) by {
      assert forall w :: w in b.wants ==> exists k :: 0 <= k < |b.wants| && b.wants[k] == w;
    }
    if ListedAll(db.catalogue, b.wants).Some? {
      ReservedIff(db.catalogue, db.shelf, b.wants, ListedAll(db.catalogue, b.wants).value);
    }
  }

  /** One use of the coupon is counted, and no other coupon row changes. */
  ghost predicate UseCounted(before: map<Id, Coupon>, after: map<Id, Coupon>, coupon: Option<Id>) {
    && after.Keys == before.Keys
    && forall c :: c in before ==>
         after[c] == if coupon == Some(c) then before[c].(used := before[c].used + 1) else before[c]
  }

  /**
   * A placed order sells the wanted lines in their order, each at its catalogue price and rates. It
   * waits for its payment, or is confirmed at once when it was placed by message; it takes exactly
   * the stock and the coupon use it names, and writes nothing else.
   */
  lemma {:induction false} PlacedSells(db: Db, b: Basket, allowed: set<Method>, now: int)
    requires Create(db, b, allowed, now).Some?
    ensures var t, n := Create(db, b, allowed, now).value, |db.orders|;
            && |t.orders| == n + 1 && t == db.(orders := db.orders + [t.orders[n]], shelf := t.shelf, coupons := t.coupons)
            && AllSold(db.catalogue, b.wants, t.orders[n].items)
            && t.orders[n] == Order(Row(b.how, if ByMessage(b.how) then Confirmed else Pending, Unpaid, None),
                                    t.orders[n].items, b.coupon, t.orders[n].totals, b.shipping, b.email, b.proof, None,
                                    now, db.store.zeroDecimal, None, 0)
            && UseCounted(db.coupons, t.coupons, b.coupon)
            && (if db.store.tracks && !db.store.digital then Taken(db.shelf, t.shelf, b.wants) else t.shelf == db.shelf)
  {
    ListedAllIff(db.catalogue, b.wants);
    ReservedIff(db.catalogue, db.shelf, b.wants, ListedAll(db.catalogue, b.wants).value);
  }
}
