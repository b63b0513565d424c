/** Placing an order: pricing from the catalogue, taking stock, redeeming the coupon, inserting the row. */
module Checkout {
  import opened Base
  import opened Pricing
  import opened Stock
  import opened Lifecycle
  import opened Domain

  /** One requested line. */
  datatype Want = Want(product: Id, variant: Option<Id>, quantity: nat)

  datatype Basket = Basket(
    wants: seq<Want>,
    coupon: Option<Id>,
    shipping: Option<Id>,
    how: Method,
    email: bool,
    proof: bool
  )

  function KeyOfWant(w: Want): Key {
    Key(Some(w.product), w.variant)
  }

  function SoldItem(w: Want, unit: nat, rates: seq<nat>): Item {
    Requantify(Item(Some(w.product), w.variant, unit, 0, rates, 0, 0), w.quantity)
  }

  /** The catalogue's price for a wanted line; None when the product or variant is unknown. */
  function Offer(catalogue: map<Id, Product>, w: Want): Option<Item> {
    if w.product !in catalogue then None
    else
      var p := catalogue[w.product];
      match w.variant
      case None => Some(SoldItem(w, p.price, p.rates))
      case Some(v) => if v in p.variants then Some(SoldItem(w, p.variants[v], p.rates)) else None
  }

  /** The storefront also needs the product listed, and a variant chosen when it is sold in variants. */
  function Listed(catalogue: map<Id, Product>, w: Want): Option<Item> {
    if w.product !in catalogue || !catalogue[w.product].listed then None
    else if w.variant.None? && catalogue[w.product].hasVariants && |catalogue[w.product].variants| > 0 then None
    else Offer(catalogue, w)
  }

  function ListedAll(catalogue: map<Id, Product>, wants: seq<Want>): Option<seq<Item>> {
    if wants == [] then Some([])
    else
      var first :- Listed(catalogue, wants[0]);
      var rest :- ListedAll(catalogue, wants[1..]);
      Some([first] + rest)
  }

  predicate Usable(c: Coupon, now: int) {
    && c.active
    && (c.expiresAt.Some? ==> c.expiresAt.value >= now)
    && (c.limit.Some? ==> c.used < c.limit.value)
  }

  /** The coupon's conditional increment. */
  function RedeemCoupon(coupons: map<Id, Coupon>, id: Id): Option<map<Id, Coupon>> {
    if id in coupons && (coupons[id].limit.None? || coupons[id].used < coupons[id].limit.value) then
      Some(coupons[id := coupons[id].(used := coupons[id].used + 1)])
    else None
  }

  /** The conditional decrement a cancellation makes. */
  function GiveBackUse(coupons: map<Id, Coupon>, coupon: Option<Id>): map<Id, Coupon> {
    if coupon.Some? && coupon.value in coupons && coupons[coupon.value].used > 0 then
      coupons[coupon.value := coupons[coupon.value].(used := coupons[coupon.value].used - 1)]
    else coupons
  }

  predicate DigitalBasketOk(b: Basket) {
    && b.email
    && b.how != Whatsapp && b.how != Telegram
    && b.shipping.None?
    && forall w :: w in b.wants ==> w.quantity == 1
  }

  /** Everything checked before anything is written, and the priced lines. */
  function PriceOrder(db: Db, b: Basket, now: int): Option<(seq<Item>, Totals)> {
    var items :- ListedAll(db.catalogue, b.wants);
    if b.coupon.Some? && !(b.coupon.value in db.coupons && Usable(db.coupons[b.coupon.value], now)) then None
    else if b.shipping.Some? && !(b.shipping.value in db.shippings && db.shippings[b.shipping.value].active) then None
    else
      var coupon := if b.coupon.Some? then Some(db.coupons[b.coupon.value].discount) else None;
      var shipping := if b.shipping.Some? then db.shippings[b.shipping.value].cost else 0;
      Some((items, PriceBasket(Lines(items), coupon, shipping)))
  }

  predicate ChannelOpen(store: Store, how: Method) {
    && (how == Whatsapp ==> store.whatsapp)
    && (how == Telegram ==> store.telegram)
  }

  /** A message order is confirmed as soon as its message is rendered; the others wait for payment. */
  function NewOrder(store: Store, b: Basket, items: seq<Item>, totals: Totals, now: int): Order {
    var status := if b.how == Whatsapp || b.how == Telegram then Confirmed else Pending;
    Order(Row(b.how, status, Unpaid, None), items, b.coupon, totals, b.shipping, b.email, b.proof, None, now,
          store.zeroDecimal, None, 0)
  }

  /** `allowed` are the checkout methods the store's plan includes. None is a request that threw. */
  function Create(db: Db, b: Basket, allowed: set<Method>, now: int): Option<Db> {
    if b.how !in allowed || (b.how == Zelle && !db.store.zelle) then None
    else if db.store.digital && !DigitalBasketOk(b) then None
    else
      var priced :- PriceOrder(db, b, now);
      var shelf :- if db.store.tracks && !db.store.digital then Reserve(db.shelf, HeldBy(priced.0)) else Some(db.shelf);
      var coupons :- if b.coupon.Some? then RedeemCoupon(db.coupons, b.coupon.value) else Some(db.coupons);
      if !ChannelOpen(db.store, b.how) then None
      else
        var o := NewOrder(db.store, b, priced.0, priced.1, now);
        Some(db.(shelf := shelf, coupons := coupons, orders := db.orders + [o]))
  }
}
