/**
 * Line, tax, coupon and order totals in whole cents. A tax rate is in thousandths of a percent
 * (the column keeps three decimals), a coupon percentage in hundredths of a percent.
 */
module Pricing {
  import opened Base

  const RATE_SCALE: nat := 100_000
  const PERCENT_SCALE: nat := 10_000

  /** round2 of the exact quotient: the nearest whole cent, a tie going up. */
  function RoundHalfUp(num: nat, den: nat): (r: nat)
    requires den > 0
    ensures 2 * num - den < 2 * (den * r) <= 2 * num + den
  {
    var r := (2 * num + den) / (2 * den);
    assert (2 * den) * r <= 2 * num + den < (2 * den) * r + 2 * den;
    assert (2 * den) * r == 2 * (den * r);
    r
  }

  datatype Priced = Priced(subtotal: nat, tax: nat, total: nat)

  datatype Line = Line(unit: nat, quantity: nat, rates: seq<nat>)

  function TaxAmounts(subtotal: nat, rates: seq<nat>): seq<nat> {
    if rates == [] then []
    else [RoundHalfUp(rates[0] * subtotal, RATE_SCALE)] + TaxAmounts(subtotal, rates[1..])
  }

  function PriceLine(line: Line): Priced {
    var subtotal := line.unit * line.quantity;
    var tax := Sum(TaxAmounts(subtotal, line.rates));
    Priced(subtotal, tax, subtotal + tax)
  }

  datatype Discount = Percentage(value: nat) | Fixed(value: nat)

  function CouponDiscount(taxed: nat, d: Discount): (r: nat)
    ensures r <= taxed
  {
    match d
    case Fixed(value) => if value <= taxed then value else taxed
    case Percentage(value) =>
      if taxed * value <= taxed * PERCENT_SCALE then
        PercentageAtMostWhole(taxed, value);
        RoundHalfUp(taxed * value, PERCENT_SCALE)
      else taxed
  }

  lemma {:induction false} PercentageAtMostWhole(taxed: nat, value: nat)
    requires taxed * value <= taxed * PERCENT_SCALE
    ensures RoundHalfUp(taxed * value, PERCENT_SCALE) <= taxed
  {
    var part := taxed * value;
    assert part <= 10_000 * taxed;
  }

  /** The order row's money columns. */
  datatype Totals = Totals(subtotal: nat, tax: nat, discount: nat, shipping: nat, grand: int)

  function Subtotal(lines: seq<Line>): nat {
    if lines == [] then 0 else PriceLine(lines[0]).subtotal + Subtotal(lines[1..])
  }

  function Tax(lines: seq<Line>): nat {
    if lines == [] then 0 else PriceLine(lines[0]).tax + Tax(lines[1..])
  }

  function LineTotals(lines: seq<Line>): nat {
    if lines == [] then 0 else PriceLine(lines[0]).total + LineTotals(lines[1..])
  }

  function MakeTotals(subtotal: nat, tax: nat, discount: nat, shipping: nat): Totals {
    Totals(subtotal, tax, discount, shipping, subtotal + tax - discount + shipping)
  }

  /** The pricing of a basket: what a quote shows and an order is charged. */
  function PriceBasket(lines: seq<Line>, coupon: Option<Discount>, shipping: nat): Totals {
    var subtotal, tax := Subtotal(lines), Tax(lines);
    var discount := if coupon.Some? then CouponDiscount(subtotal + tax, coupon.value) else 0;
    MakeTotals(subtotal, tax, discount, shipping)
  }

  // ---- How far rounding may drift ----------------------------------------------------------

  /** Tax lines applied to a basket, and its exact tax as a numerator over RATE_SCALE. */
  function TaxLines(lines: seq<Line>): nat {
    if lines == [] then 0 else |lines[0].rates| + TaxLines(lines[1..])
  }

  function ExactTax(lines: seq<Line>): nat {
    if lines == [] then 0
    else Sum(lines[0].rates) * (lines[0].unit * lines[0].quantity) + ExactTax(lines[1..])
  }

  lemma {:induction false} Distribute(a: nat, b: nat, c: nat)
    ensures (a + b) * c == a * c + b * c
  {
  }

  /** The exact tax of one line, rate by rate. */
  function ExactLineTax(subtotal: nat, rates: seq<nat>): nat {
    if rates == [] then 0 else rates[0] * subtotal + ExactLineTax(subtotal, rates[1..])
  }

  lemma {:induction false} ExactLineTaxIsProduct(subtotal: nat, rates: seq<nat>)
    ensures ExactLineTax(subtotal, rates) == Sum(rates) * subtotal
  {
    if rates != [] {
      ExactLineTaxIsProduct(subtotal, rates[1..]);
      Distribute(rates[0], Sum(rates[1..]), subtotal);
    }
  }

  /** `rounded` cents are within half a cent per amount of `exact`, a numerator over RATE_SCALE. */
  predicate WithinHalves(rounded: nat, exact: nat, count: nat) {
    -(100_000 * count) <= 200_000 * rounded - 2 * exact <= 100_000 * count
  }

  lemma {:induction false} RoundedOnce(part: nat)
    ensures WithinHalves(RoundHalfUp(part, RATE_SCALE), part, 1)
  {
    var r := RoundHalfUp(part, RATE_SCALE);
    assert RATE_SCALE * r == 100_000 * r;
  }

  lemma {:induction false} HalvesAdd(a: nat, x: nat, m: nat, b: nat, y: nat, n: nat)
    requires WithinHalves(a, x, m) && WithinHalves(b, y, n)
    ensures WithinHalves(a + b, x + y, m + n)
  {
  }

  lemma {:induction false} RatesWithinHalves(subtotal: nat, rates: seq<nat>)
    ensures WithinHalves(Sum(TaxAmounts(subtotal, rates)), ExactLineTax(subtotal, rates), |rates|)
  {
    if rates != [] {
      var part, rest := rates[0] * subtotal, TaxAmounts(subtotal, rates[1..]);
      var first := RoundHalfUp(part, RATE_SCALE);
      RatesWithinHalves(subtotal, rates[1..]);
      RoundedOnce(part);
      HalvesAdd(first, part, 1, Sum(rest), ExactLineTax(subtotal, rates[1..]), |rates| - 1);
      SumHead(first, rest);
    }
  }

  lemma {:induction false} SumHead(first: nat, rest: seq<nat>)
    ensures Sum([first] + rest) == first + Sum(rest)
  {
    assert ([first] + rest)[1..] == rest;
  }

  /** A line's tax is within half a cent per rate of its exact tax. */
  lemma {:induction false} LineTaxDrift(subtotal: nat, rates: seq<nat>)
    ensures WithinHalves(Sum(TaxAmounts(subtotal, rates)), Sum(rates) * subtotal, |rates|)
  {
    RatesWithinHalves(subtotal, rates);
    ExactLineTaxIsProduct(subtotal, rates);
  }

  /** Total tax is within half a cent per applied tax line of the exact rational tax. */
  lemma {:induction false} BasketTaxDrift(lines: seq<Line>)
    ensures WithinHalves(Tax(lines), ExactTax(lines), TaxLines(lines))
  {
    if lines != [] {
      var line := lines[0];
      var exact := Sum(line.rates) * (line.unit * line.quantity);
      BasketTaxDrift(lines[1..]);
      LineTaxDrift(line.unit * line.quantity, line.rates);
      HalvesAdd(PriceLine(line).tax, exact, |line.rates|, Tax(lines[1..]), ExactTax(lines[1..]), TaxLines(lines[1..]));
    }
  }

  lemma {:induction false} LineTotalsSplit(lines: seq<Line>)
    ensures LineTotals(lines) == Subtotal(lines) + Tax(lines)
  {
    if lines != [] {
      LineTotalsSplit(lines[1..]);
    }
  }

  /** The goods before tax: each line's price times its quantity. */
  function Goods(lines: seq<Line>): nat {
    if lines == [] then 0 else lines[0].quantity * lines[0].unit + Goods(lines[1..])
  }

  lemma {:induction false} SubtotalIsGoods(lines: seq<Line>)
    ensures Subtotal(lines) == Goods(lines)
  {
    if lines != [] {
      SubtotalIsGoods(lines[1..]);
    }
  }

  /** Each rate is rounded on its own: its amount is the cent nearest to its share, a tie going up. */
  lemma {:induction false} RatesRoundedApart(subtotal: nat, rates: seq<nat>, k: nat)
    requires k < |rates|
    ensures |TaxAmounts(subtotal, rates)| == |rates|
    ensures var share := rates[k] * subtotal;
            2 * share - 100_000 < 200_000 * TaxAmounts(subtotal, rates)[k] <= 2 * share + 100_000
  {
    if k > 0 {
      RatesRoundedApart(subtotal, rates[1..], k - 1);
    } else {
      SameLength(subtotal, rates);
      assert RATE_SCALE * TaxAmounts(subtotal, rates)[0] == 100_000 * TaxAmounts(subtotal, rates)[0];
    }
  }

  lemma {:induction false} SameLength(subtotal: nat, rates: seq<nat>)
    ensures |TaxAmounts(subtotal, rates)| == |rates|
  {
    if rates != [] {
      SameLength(subtotal, rates[1..]);
    }
  }

  /** What the buyer pays: the line totals less the discount plus shipping, never less than shipping. */
  lemma {:induction false} BasketBounds(lines: seq<Line>, coupon: Option<Discount>, shipping: nat)
    ensures var t := PriceBasket(lines, coupon, shipping);
            && t.subtotal == Goods(lines) && t.tax == Tax(lines)
            && t.discount == (if coupon.Some? then CouponDiscount(LineTotals(lines), coupon.value) else 0)
            && 0 <= t.discount <= t.subtotal + t.tax
            && t.grand == LineTotals(lines) - t.discount + t.shipping
            && t.grand >= t.shipping == shipping
  {
    LineTotalsSplit(lines);
    SubtotalIsGoods(lines);
  }

  /** With one coupon, a larger basket gets at least the discount of a smaller one and never costs less. */
  lemma {:induction false} CouponNeverInverts(small: nat, large: nat, d: Discount)
    requires small <= large
    ensures CouponDiscount(small, d) <= CouponDiscount(large, d)
    ensures small - CouponDiscount(small, d) <= large - CouponDiscount(large, d)
  {
    match d
    case Fixed(_) =>
    case Percentage(value) =>
      if value <= PERCENT_SCALE {
        FractionOfWhole(small, value);
        FractionOfWhole(large, value);
        PartGrowsSlower(small, large, value);
        RoundingFollows(small * value, large * value, large - small);
      } else {
        WholeWhenOverHundred(small, value);
        WholeWhenOverHundred(large, value);
      }
  }

  lemma {:induction false} PartGrowsSlower(small: nat, large: nat, value: nat)
    requires small <= large && value <= PERCENT_SCALE
    ensures small * value <= large * value <= small * value + 10_000 * (large - small)
  {
    Distribute(small, large - small, value);
    assert (large - small) * value <= (large - small) * 10_000;
  }

  lemma {:induction false} RoundingFollows(p: nat, q: nat, step: nat)
    requires p <= q <= p + 10_000 * step
    ensures RoundHalfUp(p, PERCENT_SCALE) <= RoundHalfUp(q, PERCENT_SCALE) <= RoundHalfUp(p, PERCENT_SCALE) + step
  {
  }

  lemma {:induction false} FractionOfWhole(taxed: nat, value: nat)
    requires value <= PERCENT_SCALE
    ensures CouponDiscount(taxed, Percentage(value)) == RoundHalfUp(taxed * value, PERCENT_SCALE)
  {
    assert taxed * value <= taxed * PERCENT_SCALE;
  }

  lemma {:induction false} WholeWhenOverHundred(taxed: nat, value: nat)
    requires value > PERCENT_SCALE
    ensures CouponDiscount(taxed, Percentage(value)) == taxed
  {
    if taxed > 0 {
      assert taxed * value > taxed * PERCENT_SCALE;
    } else {
      assert taxed * value == 0;
    }
  }

  /**
   * A fixed coupon takes its value or the whole taxed total, whichever is less; a percentage takes
   * its exact share to within half a cent, and the whole from one hundred percent on.
   */
  lemma {:induction false} CouponDiscountNear(taxed: nat, value: nat)
    ensures CouponDiscount(taxed, Fixed(value)) == if value <= taxed then value else taxed
    ensures value <= PERCENT_SCALE ==>
              var share, doubled := taxed * value, 2 * (PERCENT_SCALE * CouponDiscount(taxed, Percentage(value)));
              2 * share - PERCENT_SCALE < doubled <= 2 * share + PERCENT_SCALE
    ensures value >= PERCENT_SCALE ==> CouponDiscount(taxed, Percentage(value)) == taxed
  {
    if value <= PERCENT_SCALE {
      FractionOfWhole(taxed, value);
      if value == PERCENT_SCALE {
        assert taxed * value == PERCENT_SCALE * taxed;
      }
    } else {
      WholeWhenOverHundred(taxed, value);
    }
  }
}
