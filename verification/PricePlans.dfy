/** Scheduled prices in terms of what was scheduled and unscheduled, whatever the sweeps did meanwhile. */
module PricePlans {
  import opened Base
  import opened ScheduledPrices

  /** There is a change of the product's price at this moment, to this price. */
  ghost predicate Has(rows: seq<Row>, product: Id, from: int, price: nat) {
    exists i :: 0 <= i < |rows| && rows[i].product == product && rows[i].from == from && rows[i].price == price
  }

  /** The request schedules a change: of a product there is, in the future, at a moment free for it. */
  ghost predicate Accepts(s: State, r: Row, now: int) {
    r.product in s.prices && now < r.from
    && forall i :: 0 <= i < |s.rows| ==> s.rows[i].product != r.product || s.rows[i].from != r.from
  }

  lemma {:induction false} HasConcat(a: seq<Row>, b: seq<Row>, product: Id, from: int, price: nat)
    ensures Has(a + b, product, from, price) <==> Has(a, product, from, price) || Has(b, product, from, price)
  {
    if i :| 0 <= i < |a| && a[i].product == product && a[i].from == from && a[i].price == price {
      assert (a + b)[i] == a[i];
    }
    if i :| 0 <= i < |b| && b[i].product == product && b[i].from == from && b[i].price == price {
      assert (a + b)[|a| + i] == b[i];
    }
  }

  lemma {:induction false} HasOne(r: Row, product: Id, from: int, price: nat)
    ensures Has([r], product, from, price) <==> r.product == product && r.from == from && r.price == price
  {
    assert [r][0] == r;
  }

  lemma {:induction false} AddHas(s: State, r: Row, now: int, product: Id, from: int, price: nat)
    ensures Has(Add(s, r, now).rows, product, from, price) <==>
            || Has(s.rows, product, from, price)
            || (Accepts(s, r, now) && r.product == product && r.from == from && r.price == price)
  {
    if Accepts(s, r, now) {
      var row := r.(applied := false);
      var at := InsertSplits(s.rows, row);
      assert s.rows == s.rows[..at] + s.rows[at..];
      HasConcat(s.rows[..at], s.rows[at..], product, from, price);
      HasConcat(s.rows[..at] + [row], s.rows[at..], product, from, price);
      HasConcat(s.rows[..at], [row], product, from, price);
      HasOne(row, product, from, price);
    }
  }

  /** The change at this index is of this product at this moment, and may still be removed. */
  predicate Removes(rows: seq<Row>, index: nat, product: Id, from: int) {
    index < |rows| && !rows[index].applied && rows[index].product == product && rows[index].from == from
  }

  lemma {:induction false} RemoveHas(s: State, index: nat, now: int, product: Id, from: int, price: nat)
    requires Distinct(s.rows)
    ensures Has(Remove(s, index, now).rows, product, from, price) <==>
            Has(s.rows, product, from, price) && !Removes(s.rows, index, product, from)
  {
    if index < |s.rows| && !s.rows[index].applied {
      var a, r, b := s.rows[..index], s.rows[index], s.rows[index + 1..];
      assert s.rows == a + [r] + b;
      HasConcat(a, b, product, from, price);
      HasConcat(a + [r], b, product, from, price);
      HasConcat(a, [r], product, from, price);
      HasOne(r, product, from, price);
      if r.product == product && r.from == from {
        OnlyRow(s.rows, index, product, from, price);
      }
    }
  }

  /** No other row is of the same product at the same moment. */
  lemma {:induction false} OnlyRow(rows: seq<Row>, index: nat, product: Id, from: int, price: nat)
    requires Distinct(rows) && index < |rows| && rows[index].product == product && rows[index].from == from
    ensures !Has(rows[..index], product, from, price) && !Has(rows[index + 1..], product, from, price)
  {
  }

  lemma {:induction false} SweepHas(s: State, now: int, product: Id, from: int, price: nat)
    ensures Has(Sweep(s, now).rows, product, from, price) <==> Has(s.rows, product, from, price)
  {
    var t := Sweep(s, now);
    assert forall i :: 0 <= i < |s.rows| ==> t.rows[i] == s.rows[i].(applied := t.rows[i].applied);
  }

  // ---- Whole runs -------------------------------------------------------------------------------------

  function Start(prices: map<Id, nat>, clock: int): State {
    State(prices, [], clock, None)
  }

  lemma {:induction false} RunSnoc(s: State, events: seq<Event>)
    requires events != []
    ensures var n := |events| - 1;
            && Run(s, events) == Next(Run(s, events[..n]), events[n])
            && (ClockAdvances(s, events) ==> ClockAdvances(s, events[..n]) && InTime(Run(s, events[..n]), events[n]))
    decreases |events|
  {
    var n := |events| - 1;
    if n == 0 {
      assert events[..0] == [] && events[1..] == [];
    } else {
      RunSnoc(Next(s, events[0]), events[1..]);
      assert events[1..][..n - 1] == events[..n][1..] && events[1..][n - 1] == events[n];
    }
  }

  /** Event n scheduled this change. */
  ghost predicate ScheduledBy(s: State, events: seq<Event>, n: nat, product: Id, from: int, price: nat) {
    && n < |events| && events[n].Schedule? && Accepts(Run(s, events[..n]), events[n].row, events[n].now)
    && events[n].row.product == product && events[n].row.from == from && events[n].row.price == price
  }

  /** Event m removed it. */
  ghost predicate RemovedBy(s: State, events: seq<Event>, m: nat, product: Id, from: int) {
    m < |events| && events[m].Unschedule? && Removes(Run(s, events[..m]).rows, events[m].index, product, from)
  }

  ghost predicate StandsSince(s: State, events: seq<Event>, n: nat, product: Id, from: int, price: nat) {
    && ScheduledBy(s, events, n, product, from, price)
    && forall m: nat :: n < m < |events| ==> !RemovedBy(s, events, m, product, from)
  }

  /** The change was scheduled and never removed since. */
  ghost predicate Stands(s: State, events: seq<Event>, product: Id, from: int, price: nat) {
    exists n: nat :: StandsSince(s, events, n, product, from, price)
  }

  lemma {:induction false} SincePrefix(s: State, events: seq<Event>, n: nat, product: Id, from: int, price: nat)
    requires events != [] && n < |events| - 1
    ensures var k := |events| - 1;
            StandsSince(s, events, n, product, from, price) <==>
            StandsSince(s, events[..k], n, product, from, price) && !RemovedBy(s, events, k, product, from)
  {
    var k := |events| - 1;
    assert forall m: nat :: m < k ==> events[..k][m] == events[m] && events[..k][..m] == events[..m];
    assert ScheduledBy(s, events, n, product, from, price) <==> ScheduledBy(s, events[..k], n, product, from, price);
    assert forall m: nat :: m < k ==>
             (RemovedBy(s, events, m, product, from) <==> RemovedBy(s, events[..k], m, product, from));
  }

  lemma {:induction false} StandsSnoc(s: State, events: seq<Event>, product: Id, from: int, price: nat)
    requires events != []
    ensures var k := |events| - 1;
            Stands(s, events, product, from, price) <==>
            || ScheduledBy(s, events, k, product, from, price)
            || (Stands(s, events[..k], product, from, price) && !RemovedBy(s, events, k, product, from))
  {
    var k := |events| - 1;
    if n: nat :| StandsSince(s, events, n, product, from, price) {
      if n < k {
        SincePrefix(s, events, n, product, from, price);
      }
    }
    if ScheduledBy(s, events, k, product, from, price) {
      assert StandsSince(s, events, k, product, from, price);
    }
    if n: nat :| StandsSince(s, events[..k], n, product, from, price) {
      SincePrefix(s, events, n, product, from, price);
    }
  }

  /** The rows are exactly the changes that stand. */
  lemma {:induction false} RowsAreWhatStands(prices: map<Id, nat>, clock: int, events: seq<Event>, product: Id, from: int,
                                             price: nat)
    requires ClockAdvances(Start(prices, clock), events)
    ensures Has(Run(Start(prices, clock), events).rows, product, from, price)
            <==> Stands(Start(prices, clock), events, product, from, price)
  {
    var s := Start(prices, clock);
    if events != [] {
      var k := |events| - 1;
      RunSnoc(s, events);
      RowsAreWhatStands(prices, clock, events[..k], product, from, price);
      RunInv(s, events[..k], prices);
      StandsSnoc(s, events, product, from, price);
      var t := Run(s, events[..k]);
      match events[k] {
        case Schedule(row, now) => AddHas(t, row, now, product, from, price);
        case Unschedule(index, now) => RemoveHas(t, index, now, product, from, price);
        case RunSweep(now) => SweepHas(t, now, product, from, price);
      }
    }
  }

  /**
   * Over every history: of the changes that were scheduled for a product and not removed, its price is
   * that of the last one the latest sweep reached; if it reached none, the price it had.
   */
  lemma {:induction false} PriceFollowsSchedule(prices: map<Id, nat>, clock: int, events: seq<Event>, product: Id)
    requires product in prices && ClockAdvances(Start(prices, clock), events)
    ensures var s, t := Start(prices, clock), Run(Start(prices, clock), events);
            && product in t.prices
            && (forall from: int, price: nat ::
                  && Stands(s, events, product, from, price) && Before(from, t.lastRun)
                  && NoneBetween(s, events, product, from, t.lastRun)
                  ==> t.prices[product] == price)
            && ((forall from: int, price: nat :: Stands(s, events, product, from, price) ==> !Before(from, t.lastRun))
                ==> t.prices[product] == prices[product])
  {
    var s, t := Start(prices, clock), Run(Start(prices, clock), events);
    PriceAfterAnyHistory(prices, clock, events, product);
    RunInv(s, events, prices);
    forall from: int, price: nat
      ensures Has(t.rows, product, from, price) <==> Stands(s, events, product, from, price)
    {
      RowsAreWhatStands(prices, clock, events, product, from, price);
    }
    forall i | 0 <= i < |t.rows| && t.rows[i].product == product
      ensures Stands(s, events, product, t.rows[i].from, t.rows[i].price)
    {
      assert Has(t.rows, product, t.rows[i].from, t.rows[i].price);
    }
    forall from: int, price: nat |
      && Stands(s, events, product, from, price) && Before(from, t.lastRun)
      && NoneBetween(s, events, product, from, t.lastRun)
      ensures t.prices[product] == price
    {
      assert Has(t.rows, product, from, price);
      var k :| 0 <= k < |t.rows| && t.rows[k].product == product && t.rows[k].from == from && t.rows[k].price == price;
      assert Governs(t.rows, product, t.lastRun.value, k);
    }
  }

  /** No later change of the product that stands had been reached either. */
  ghost predicate NoneBetween(s: State, events: seq<Event>, product: Id, from: int, lastRun: Option<int>) {
    forall later: int, price: nat :: Stands(s, events, product, later, price) && Before(later, lastRun) ==> later <= from
  }

  /** A sweep counts the products that had a change to apply. */
  lemma {:induction false} SweepCounts(rows: seq<Row>, now: int, product: Id)
    ensures product in Latest(rows, now) <==>
            exists i :: 0 <= i < |rows| && rows[i].product == product && !rows[i].applied && rows[i].from <= now
  {
    if rows != [] {
      var n := |rows| - 1;
      SweepCounts(rows[..n], now, product);
      assert forall i :: 0 <= i < n ==> rows[..n][i] == rows[i];
    }
  }

  /** A change that a sweep has reached can no longer be removed. */
  lemma {:induction false} AppliedStays(prices: map<Id, nat>, clock: int, events: seq<Event>, product: Id, from: int,
                                        index: nat)
    requires ClockAdvances(Start(prices, clock), events) && Before(from, Run(Start(prices, clock), events).lastRun)
    ensures !Removes(Run(Start(prices, clock), events).rows, index, product, from)
  {
    RunInv(Start(prices, clock), events, prices);
  }
}
