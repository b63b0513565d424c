/** Stored totals over whole runs, whatever happens to the catalogue and to other orders meanwhile. */
module TotalsHistory {
  import opened Base
  import opened Pricing
  import opened Lifecycle
  import opened Domain
  import opened Checkout
  import opened Editing
  import opened OrderTotals
  import opened History
  import opened Frames

  /** The request changes the lines or the shipping of order i. */
  predicate EditsSale(r: Request, i: nat) {
    r.CorrectOrder? && r.order == i && (r.edit.wants.Some? || r.edit.shipping.Some?)
  }

  /** Order i's totals are the pricing of its own lines, coupon and shipping option. */
  ghost predicate Billed(db: Db, i: nat) {
    && i < |db.orders| && PricedTotals(db.coupons, db.orders[i])
    && db.orders[i].totals.shipping == ShippingCost(db.shippings, db.orders[i].shipping)
    && forall item :: item in db.orders[i].items ==> ItemOk(item)
  }

  lemma {:induction false} SameSaleBilled(db: Db, t: Db, i: nat)
    requires SameOffers(db.coupons, t.coupons) && t.shippings == db.shippings
    requires i < |db.orders| && i < |t.orders| && SameSale(db.orders[i], t.orders[i])
    ensures Billed(db, i) ==> Billed(t, i)
    ensures WellPriced(db.coupons, db.orders[i]) ==> WellPriced(t.coupons, t.orders[i])
  {
    SameDiscount(db.coupons, t.coupons, db.orders[i].coupon);
  }

  lemma {:induction false} OtherRequestKeepsSale(db: Db, r: Request, i: nat)
    requires i < |db.orders| && !EditsSale(r, i)
    ensures var t := Handle(db, r);
            && SameOffers(db.coupons, t.coupons) && t.shippings == db.shippings
            && i < |t.orders| && SameSale(db.orders[i], t.orders[i])
  {
    StepKeepsSettings(db, r);
    if r.CorrectOrder? {
      if UpdateDetails(db, r.order, r.edit).Some? {
        EditFrame(db, r.order, r.edit);
        if r.order == i {
          PaymentOnly(db, i, r.edit);
        }
      }
    } else {
      StepSame(db, r);
    }
  }

  lemma {:induction false} PaymentOnly(db: Db, i: nat, e: Edit)
    requires UpdateDetails(db, i, e).Some? && e.wants.None? && e.shipping.None?
    ensures i < |db.orders| && SameSale(db.orders[i], UpdateDetails(db, i, e).value.orders[i])
  {
  }

  /** Any edit of an unrepeated order bills it anew. */
  lemma {:induction false} EditBills(db: Db, i: nat, e: Edit)
    requires Billed(db, i) && WellPriced(db.coupons, db.orders[i]) && UpdateDetails(db, i, e).Some?
    ensures var t := UpdateDetails(db, i, e).value; Billed(t, i) && WellPriced(t.coupons, t.orders[i])
  {
    EditWellPriced(db, i, e);
    EditKeepsShipping(db, i, e);
  }

  /** Placed without repeats, or not edited since. */
  ghost predicate Accountable(db: Db, i: nat, requests: seq<Request>) {
    && Billed(db, i)
    && (WellPriced(db.coupons, db.orders[i]) || forall r :: r in requests ==> !EditsSale(r, i))
  }

  lemma {:induction false} StepAccountable(db: Db, i: nat, requests: seq<Request>)
    requires requests != [] && Accountable(db, i, requests)
    ensures Accountable(Handle(db, requests[0]), i, requests[1..])
  {
    var r := requests[0];
    assert r in requests && forall q :: q in requests[1..] ==> q in requests;
    if EditsSale(r, i) {
      if UpdateDetails(db, i, r.edit).Some? {
        EditBills(db, i, r.edit);
      }
    } else {
      OtherRequestKeepsSale(db, r, i);
      SameSaleBilled(db, Handle(db, r), i);
    }
  }

  lemma {:induction false} RunAccountable(db: Db, i: nat, requests: seq<Request>)
    requires Accountable(db, i, requests)
    ensures Billed(Run(db, requests), i)
    decreases |requests|
  {
    if requests != [] {
      StepAccountable(db, i, requests);
      RunAccountable(Handle(db, requests[0]), i, requests[1..]);
    }
  }

  /** An order was placed by this request, on top of what went before. */
  ghost predicate Placed(db: Db, b: Basket, allowed: set<Method>, now: int, after: seq<Request>) {
    && Create(db, b, allowed, now).Some?
    && (DistinctWants(b.wants) || forall r :: r in after ==> !EditsSale(r, |db.orders|))
  }

  lemma {:induction false} PlacedStaysBilled(db: Db, b: Basket, allowed: set<Method>, now: int, after: seq<Request>)
    requires Placed(db, b, allowed, now, after)
    ensures Billed(Run(Create(db, b, allowed, now).value, after), |db.orders|)
  {
    var t := Create(db, b, allowed, now).value;
    CreatedPriced(db, b, allowed, now);
    CreateSame(db, b, allowed, now);
    if DistinctWants(b.wants) {
      CreatedWellPriced(db, b, allowed, now);
    }
    RunAccountable(t, |db.orders|, after);
  }

  /**
   * An order placed without a repeated line, or whose lines and shipping are not edited: whatever
   * happens to it, to other orders and to the catalogue, its stored totals are the pricing of the
   * lines it stores, with its coupon's discount and the cost of its shipping option.
   */
  lemma {:induction false} TotalsAlwaysPriced(db: Db, b: Basket, allowed: set<Method>, now: int, after: seq<Request>)
    requires Placed(db, b, allowed, now, after)
    ensures var t, i := Run(Create(db, b, allowed, now).value, after), |db.orders|;
            && i < |t.orders|
            && var o := t.orders[i];
            && o.totals == PriceBasket(Lines(o.items), DiscountOf(db.coupons, o.coupon),
                                       ShippingCost(db.shippings, o.shipping))
            && o.totals.grand >= o.totals.shipping
            && (forall item :: item in o.items ==> ItemOk(item))
  {
    var s := Create(db, b, allowed, now).value;
    var t, i := Run(s, after), |db.orders|;
    PlacedStaysBilled(db, b, allowed, now, after);
    CreateSame(db, b, allowed, now);
    RunKeepsSettings(s, after);
    SameDiscount(db.coupons, s.coupons, t.orders[i].coupon);
    SameDiscount(s.coupons, t.coupons, t.orders[i].coupon);
    BasketBounds(Lines(t.orders[i].items), DiscountOf(db.coupons, t.orders[i].coupon), t.orders[i].totals.shipping);
  }

  lemma {:induction false} SameDiscount(a: map<Id, Coupon>, b: map<Id, Coupon>, coupon: Option<Id>)
    requires SameOffers(a, b)
    ensures DiscountOf(a, coupon) == DiscountOf(b, coupon)
  {
  }
}
