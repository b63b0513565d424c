/** The Stripe Checkout session of an order, in the gateway's integer minor unit. */
module StripeSession {
  import opened Base
  import opened Pricing
  import opened Currency
  import opened Lifecycle
  import opened Domain
  import opened Checkout
  import opened OrderTotals
  import opened Settlement
  import opened History
  import opened TotalsHistory

  datatype LineItem = LineItem(quantity: nat, amount: nat)

  /** Discounts are one-off coupons: Stripe rejects negative lines. */
  datatype Session = Session(lines: seq<LineItem>, discounts: seq<nat>)

  function Charge(lines: seq<LineItem>): nat {
    if lines == [] then 0 else lines[0].quantity * lines[0].amount + Charge(lines[1..])
  }

  /** What Stripe collects for the session. */
  function AmountTotal(s: Session): int {
    Charge(s.lines) - Sum(s.discounts)
  }

  function ItemLines(items: seq<Item>, zero: bool): seq<LineItem> {
    if items == [] then []
    else [LineItem(items[0].quantity, ToMinor(items[0].unit, zero))] + ItemLines(items[1..], zero)
  }

  function Extra(amount: nat, zero: bool): seq<LineItem> {
    if amount > 0 then [LineItem(1, ToMinor(amount, zero))] else []
  }

  function SessionFor(o: Order): Session {
    Session(ItemLines(o.items, o.zeroDecimal) + Extra(o.totals.shipping, o.zeroDecimal) + Extra(o.totals.tax, o.zeroDecimal),
            if o.totals.discount > 0 then [ToMinor(o.totals.discount, o.zeroDecimal)] else [])
  }

  lemma {:induction false} ItemLinesSnoc(items: seq<Item>, x: Item, zero: bool)
    ensures ItemLines(items + [x], zero) == ItemLines(items, zero) + [LineItem(x.quantity, ToMinor(x.unit, zero))]
  {
    if items == [] {
      assert items + [x] == [x];
    } else {
      assert (items + [x])[1..] == items[1..] + [x];
      ItemLinesSnoc(items[1..], x, zero);
    }
  }

  /** Builds the session as the adapter does: item lines, then shipping and tax pushed, then the discount. */
  method CreateCheckout(o: Order) returns (session: Session)
    ensures session == SessionFor(o)
  {
    var lines := [];
    for i := 0 to |o.items|
      invariant lines == ItemLines(o.items[..i], o.zeroDecimal)
    {
      ItemLinesSnoc(o.items[..i], o.items[i], o.zeroDecimal);
      assert o.items[..i + 1] == o.items[..i] + [o.items[i]];
      lines := lines + [LineItem(o.items[i].quantity, ToMinor(o.items[i].unit, o.zeroDecimal))];
    }
    assert o.items[..|o.items|] == o.items;
    if o.totals.shipping > 0 {
      lines := lines + [LineItem(1, ToMinor(o.totals.shipping, o.zeroDecimal))];
    }
    if o.totals.tax > 0 {
      lines := lines + [LineItem(1, ToMinor(o.totals.tax, o.zeroDecimal))];
    }
    var discounts := [];
    if o.totals.discount > 0 {
      discounts := discounts + [ToMinor(o.totals.discount, o.zeroDecimal)];
    }
    session := Session(lines, discounts);
  }

  /** The gateway's amount for so many cents: the cents, or the nearest whole units, a tie going up. */
  predicate MinorOf(amount: nat, cents: nat, zero: bool) {
    if zero then -50 < 100 * amount - cents <= 50 else amount == cents
  }

  /** Line k of the session is the order's line k: its quantity, at its unit price. */
  lemma {:induction false} SessionListsItems(o: Order, k: nat)
    requires k < |o.items|
    ensures var lines := SessionFor(o).lines;
            && |lines| >= |o.items| && lines[k].quantity == o.items[k].quantity
            && MinorOf(lines[k].amount, o.items[k].unit, o.zeroDecimal)
  {
    ItemLinesAt(o.items, o.zeroDecimal, k);
  }

  /** After them come shipping and tax, and beside them the discount, each only if there is any. */
  lemma {:induction false} SessionExtras(o: Order)
    ensures var s, n := SessionFor(o), |o.items|;
            var shipped, taxed := if o.totals.shipping > 0 then 1 else 0, if o.totals.tax > 0 then 1 else 0;
            && |s.lines| == n + shipped + taxed
            && (shipped == 1 ==> s.lines[n].quantity == 1 && MinorOf(s.lines[n].amount, o.totals.shipping, o.zeroDecimal))
            && (taxed == 1 ==>
                  s.lines[n + shipped].quantity == 1 && MinorOf(s.lines[n + shipped].amount, o.totals.tax, o.zeroDecimal))
            && |s.discounts| == (if o.totals.discount > 0 then 1 else 0)
            && (s.discounts != [] ==> MinorOf(s.discounts[0], o.totals.discount, o.zeroDecimal))
  {
    AsManyLines(o.items, o.zeroDecimal);
  }

  lemma {:induction false} ItemLinesAt(items: seq<Item>, zero: bool, k: nat)
    requires k < |items|
    ensures |ItemLines(items, zero)| == |items|
    ensures ItemLines(items, zero)[k] == LineItem(items[k].quantity, ToMinor(items[k].unit, zero))
  {
    if k > 0 {
      ItemLinesAt(items[1..], zero, k - 1);
    } else {
      AsManyLines(items, zero);
    }
  }

  lemma {:induction false} AsManyLines(items: seq<Item>, zero: bool)
    ensures |ItemLines(items, zero)| == |items|
  {
    if items != [] {
      AsManyLines(items[1..], zero);
    }
  }

  lemma {:induction false} ChargeConcat(a: seq<LineItem>, b: seq<LineItem>)
    ensures Charge(a + b) == Charge(a) + Charge(b)
  {
    if a == [] {
      assert a + b == b;
    } else {
      assert (a + b)[1..] == a[1..] + b;
      ChargeConcat(a[1..], b);
    }
  }

  lemma {:induction false} Extras(amount: nat, zero: bool)
    ensures Charge(Extra(amount, zero)) == ToMinor(amount, zero)
  {
    NothingMinor(zero);
    assert Extra(amount, zero) != [] ==> Extra(amount, zero)[1..] == [];
  }

  lemma {:induction false} SessionSum(o: Order)
    ensures AmountTotal(SessionFor(o)) ==
            Charge(ItemLines(o.items, o.zeroDecimal)) + ToMinor(o.totals.shipping, o.zeroDecimal)
            + ToMinor(o.totals.tax, o.zeroDecimal) - ToMinor(o.totals.discount, o.zeroDecimal)
  {
    var zero := o.zeroDecimal;
    var items, shipping, tax := ItemLines(o.items, zero), Extra(o.totals.shipping, zero), Extra(o.totals.tax, zero);
    ChargeConcat(items + shipping, tax);
    ChargeConcat(items, shipping);
    Extras(o.totals.shipping, zero);
    Extras(o.totals.tax, zero);
    NothingMinor(zero);
    var d := ToMinor(o.totals.discount, zero);
    assert Sum([d]) == d + Sum([d][1..]) && [d][1..] == [];
  }

  lemma {:induction false} NothingMinor(zero: bool)
    ensures ToMinor(0, zero) == 0
  {
  }

  /** One more item: its own line on the session, its own subtotal on the order. */
  lemma {:induction false} ChargeHead(items: seq<Item>, zero: bool)
    requires items != []
    ensures Charge(ItemLines(items, zero))
            == items[0].quantity * ToMinor(items[0].unit, zero) + Charge(ItemLines(items[1..], zero))
    ensures Subtotal(Lines(items)) == items[0].unit * items[0].quantity + Subtotal(Lines(items[1..]))
  {
    var head := LineItem(items[0].quantity, ToMinor(items[0].unit, zero));
    assert ([head] + ItemLines(items[1..], zero))[1..] == ItemLines(items[1..], zero);
    assert Lines(items)[1..] == Lines(items[1..]);
  }

  lemma {:induction false} PlainCharge(unit: nat, quantity: nat)
    ensures quantity * ToMinor(unit, false) == unit * quantity
  {
  }

  lemma {:induction false} ItemCharge(items: seq<Item>)
    ensures Charge(ItemLines(items, false)) == Subtotal(Lines(items))
  {
    if items != [] {
      ItemCharge(items[1..]);
      ChargeHead(items, false);
      PlainCharge(items[0].unit, items[0].quantity);
    }
  }

  /** With two decimals the session of an order whose totals price its lines, repeated or not, totals its grand total. */
  lemma {:induction false} SessionTotalsGrand(coupons: map<Id, Coupon>, o: Order)
    requires PricedTotals(coupons, o) && !o.zeroDecimal
    ensures AmountTotal(SessionFor(o)) == o.totals.grand
  {
    SessionSum(o);
    ItemCharge(o.items);
  }

  /** So the payment of its session passes the webhook's amount check and confirms the order. */
  lemma {:induction false} WebhookAcceptsSession(db: Db, i: nat, payment: Id, now: int)
    requires i < |db.orders| && PricedTotals(db.coupons, db.orders[i]) && !db.orders[i].zeroDecimal
    requires db.orders[i].row.how == Stripe && Claimable(db.orders[i].row)
    ensures AmountTotal(SessionFor(db.orders[i])) >= 0
    ensures var r := Report(Stripe, Some(payment), AmountTotal(SessionFor(db.orders[i])), true, true, None);
            && AmountOk(db.orders[i], r)
            && i < |Settle(db, i, r, now).orders|
            && Settle(db, i, r, now).orders[i].row == Settled(db.orders[i].row, Some(payment))
  {
    var o := db.orders[i];
    SessionTotalsGrand(db.coupons, o);
    BasketBounds(Lines(o.items), DiscountOf(db.coupons, o.coupon), o.totals.shipping);
  }

  /**
   * Over runs: a Stripe order in a two-decimal currency, placed without a repeated line or never
   * edited in its lines and shipping, is confirmed by the payment of its session at any moment it
   * still waits for one.
   */
  lemma {:induction false} SessionAcceptedEver(db: Db, b: Basket, allowed: set<Method>, placed: int,
                                               after: seq<Request>, payment: Id, now: int)
    requires Placed(db, b, allowed, placed, after)
    ensures var t, i := Run(Create(db, b, allowed, placed).value, after), |db.orders|;
            && i < |t.orders|
            && (t.orders[i].row.how == Stripe && !t.orders[i].zeroDecimal && Claimable(t.orders[i].row) ==>
                  && AmountTotal(SessionFor(t.orders[i])) >= 0
                  && var r := Report(Stripe, Some(payment), AmountTotal(SessionFor(t.orders[i])), true, true, None);
                  && i < |Settle(t, i, r, now).orders|
                  && Settle(t, i, r, now).orders[i].row == Settled(t.orders[i].row, Some(payment)))
  {
    var t, i := Run(Create(db, b, allowed, placed).value, after), |db.orders|;
    PlacedStaysBilled(db, b, allowed, placed, after);
    if t.orders[i].row.how == Stripe && !t.orders[i].zeroDecimal && Claimable(t.orders[i].row) {
      WebhookAcceptsSession(t, i, payment, now);
    }
  }

  // ---- Currencies without a minor unit --------------------------------------------------------------

  /** What rounding one amount to whole units adds, in cents: more than -50 and at most 50. */
  function Error(cents: nat): (e: int)
    ensures -50 < e <= 50 && (cents % 100 == 0 ==> e == 0)
  {
    100 * ToMinor(cents, true) - cents
  }

  function ItemsError(items: seq<Item>): int {
    if items == [] then 0 else items[0].quantity * Error(items[0].unit) + ItemsError(items[1..])
  }

  /** The session rounds each unit price and each extra amount on its own; these are their errors together. */
  function SessionError(o: Order): int {
    ItemsError(o.items) + Error(o.totals.shipping) + Error(o.totals.tax) - Error(o.totals.discount)
  }

  lemma {:induction false} ItemsDrift(items: seq<Item>)
    ensures 100 * Charge(ItemLines(items, true)) == Subtotal(Lines(items)) + ItemsError(items)
  {
    if items != [] {
      ItemsDrift(items[1..]);
      ChargeHead(items, true);
      LineDrift(items[0].unit, items[0].quantity);
    }
  }

  lemma {:induction false} LineDrift(unit: nat, quantity: nat)
    ensures 100 * (quantity * ToMinor(unit, true)) == unit * quantity + quantity * Error(unit)
  {
    var rounded := ToMinor(unit, true);
    assert quantity * Error(unit) == quantity * (100 * rounded) - quantity * unit;
  }

  /**
   * Without a minor unit the session totals the rounded grand total, and so passes the webhook's
   * amount check, if and only if the errors of its amounts together stay within half a unit.
   */
  lemma {:induction false} ZeroDecimalTotalsIff(coupons: map<Id, Coupon>, o: Order)
    requires PricedTotals(coupons, o) && o.zeroDecimal
    ensures o.totals.grand >= 0
    ensures AmountTotal(SessionFor(o)) == ToMinor(o.totals.grand, true) <==> -50 < SessionError(o) <= 50
  {
    SessionSum(o);
    ItemsDrift(o.items);
    BasketBounds(Lines(o.items), DiscountOf(coupons, o.coupon), o.totals.shipping);
    assert 100 * AmountTotal(SessionFor(o)) == o.totals.grand + SessionError(o);
    NearestUnit(o.totals.grand, SessionError(o), AmountTotal(SessionFor(o)));
  }

  lemma {:induction false} NearestUnit(cents: nat, error: int, units: int)
    requires 100 * units == cents + error
    ensures units == ToMinor(cents, true) <==> -50 < error <= 50
  {
    var e := Error(cents);
    assert 100 * ToMinor(cents, true) == cents + e;
  }

  /** Two copies at 0.50: the session asks for two units, the order is worth one, and the webhook would refund it. */
  lemma {:induction false} HalfUnitsDisagree(o: Order)
    requires o.zeroDecimal && o.items == [Item(Some(0), None, 50, 2, [], 0, 100)]
    requires o.totals == Totals(100, 0, 0, 0, 100)
    ensures AmountTotal(SessionFor(o)) == 2 && ToMinor(o.totals.grand, true) == 1
  {
    SessionSum(o);
    assert ItemLines(o.items, true) == [LineItem(2, 1)] + ItemLines(o.items[1..], true);
    assert o.items[1..] == [];
    assert ToMinor(0, true) == 0;
  }
}
