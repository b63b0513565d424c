/** Price changes planned ahead and the sweep that copies due ones into the catalogue. */
module ScheduledPrices {
  import opened Base

  datatype Row = Row(id: Id, product: Id, price: nat, from: int, applied: bool)

  /** `rows` are read ordered by the moment they take effect; `lastRun` is the last sweep's clock. */
  datatype State = State(prices: map<Id, nat>, rows: seq<Row>, clock: int, lastRun: Option<int>)

  predicate Due(r: Row, now: int) {
    !r.applied && r.from <= now
  }

  /** The newest due price of each product: later rows supersede earlier ones. */
  function Latest(rows: seq<Row>, now: int): map<Id, nat> {
    if rows == [] then map[]
    else
      var init, last := Latest(rows[..|rows| - 1], now), rows[|rows| - 1];
      if Due(last, now) then init[last.product := last.price] else init
  }

  function Marked(rows: seq<Row>, now: int): seq<Row> {
    seq(|rows|, i requires 0 <= i < |rows| => if Due(rows[i], now) then rows[i].(applied := true) else rows[i])
  }

  /** A product deleted since is silently skipped. */
  function Overlay(prices: map<Id, nat>, latest: map<Id, nat>): map<Id, nat> {
    map p | p in prices :: if p in latest then latest[p] else prices[p]
  }

  function Sweep(s: State, now: int): State {
    s.(prices := Overlay(s.prices, Latest(s.rows, now)), rows := Marked(s.rows, now), clock := now, lastRun := Some(now))
  }

  function Insert(rows: seq<Row>, r: Row): seq<Row> {
    if rows == [] then [r]
    else if r.from < rows[0].from then [r] + rows
    else [rows[0]] + Insert(rows[1..], r)
  }

  predicate Taken(rows: seq<Row>, product: Id, from: int) {
    exists i :: 0 <= i < |rows| && rows[i].product == product && rows[i].from == from
  }

  /** Only a future moment not taken yet for the product may be scheduled. */
  function Add(s: State, r: Row, now: int): State {
    if r.product !in s.prices || r.from <= now || Taken(s.rows, r.product, r.from) then s.(clock := now)
    else s.(rows := Insert(s.rows, r.(applied := false)), clock := now)
  }

  /** Only a change not applied yet may be removed. */
  function Remove(s: State, i: nat, now: int): State {
    if i >= |s.rows| || s.rows[i].applied then s.(clock := now)
    else s.(rows := s.rows[..i] + s.rows[i + 1..], clock := now)
  }

  datatype Event = Schedule(row: Row, now: int) | Unschedule(index: nat, now: int) | RunSweep(now: int)

  function Next(s: State, e: Event): State {
    match e
    case Schedule(row, now) => Add(s, row, now)
    case Unschedule(i, now) => Remove(s, i, now)
    case RunSweep(now) => Sweep(s, now)
  }

  function Run(s: State, events: seq<Event>): State
    decreases |events|
  {
    if events == [] then s else Run(Next(s, events[0]), events[1..])
  }

  // ---- As it runs -----------------------------------------------------------------------------------

  class Service {
    var prices: map<Id, nat>
    var rows: seq<Row>

    constructor (prices: map<Id, nat>, rows: seq<Row>)
      ensures this.prices == prices && this.rows == rows
    {
      this.prices, this.rows := prices, rows;
    }

    /** Collects the newest due row per product, copies each price, then marks every due row applied. */
    method ApplyDuePrices(now: int) returns (changed: nat)
      modifies this
      ensures prices == Overlay(old(prices), Latest(old(rows), now))
      ensures rows == Marked(old(rows), now)
      ensures changed == |Latest(old(rows), now)|
    {
      var latest: map<Id, nat> := map[];
      for i := 0 to |rows|
        invariant latest == Latest(rows[..i], now)
        invariant rows == old(rows) && prices == old(prices)
      {
        assert rows[..i + 1][..i] == rows[..i];
        if Due(rows[i], now) {
          latest := latest[rows[i].product := rows[i].price];
        }
      }
      assert rows[..|rows|] == rows;
      var todo := latest.Keys;
      while todo != {}
        invariant todo <= latest.Keys && prices.Keys == old(prices).Keys && rows == old(rows)
        invariant forall p :: p in prices ==>
                    prices[p] == if p in latest && p !in todo then latest[p] else old(prices)[p]
        decreases |todo|
      {
        var p :| p in todo;
        if p in prices {
          prices := prices[p := latest[p]];
        }
        todo := todo - {p};
      }
      assert prices == Overlay(old(prices), latest);
      rows := Marked(rows, now);
      changed := |latest|;
    }
  }

  // ---- The promise ----------------------------------------------------------------------------------

  /** The price of the last row of the product in effect by `upTo`, or the one it starts from. */
  function InEffect(rows: seq<Row>, product: Id, upTo: int, start: nat): nat {
    if rows == [] then start
    else
      InEffect(rows[1..], product, upTo,
               if rows[0].product == product && rows[0].from <= upTo then rows[0].price else start)
  }

  predicate Ordered(rows: seq<Row>) {
    forall i, j :: 0 <= i < j < |rows| ==> rows[i].from <= rows[j].from
  }

  /** No product changes price twice at one moment. */
  predicate Distinct(rows: seq<Row>) {
    forall i, j :: 0 <= i < j < |rows| && rows[i].product == rows[j].product ==> rows[i].from != rows[j].from
  }

  predicate Before(from: int, lastRun: Option<int>) {
    lastRun.Some? && from <= lastRun.value
  }

  /** A row is applied exactly when the last sweep had reached it, and every price is the one then in effect. */
  ghost predicate Inv(s: State, start: map<Id, nat>) {
    && s.prices.Keys == start.Keys
    && Ordered(s.rows) && Distinct(s.rows)
    && (s.lastRun.Some? ==> s.lastRun.value <= s.clock)
    && (forall i :: 0 <= i < |s.rows| ==> (s.rows[i].applied <==> Before(s.rows[i].from, s.lastRun)))
    && (forall p :: p in start ==>
          s.prices[p] == if s.lastRun.Some? then InEffect(s.rows, p, s.lastRun.value, start[p]) else start[p])
  }

  lemma {:induction false} NoneInEffect(rows: seq<Row>, product: Id, upTo: int, start: nat)
    requires forall i :: 0 <= i < |rows| ==> rows[i].from > upTo
    ensures InEffect(rows, product, upTo, start) == start
  {
    if rows != [] {
      NoneInEffect(rows[1..], product, upTo, start);
    }
  }

  lemma {:induction false} InEffectConcat(a: seq<Row>, b: seq<Row>, product: Id, upTo: int, start: nat)
    ensures InEffect(a + b, product, upTo, start) == InEffect(b, product, upTo, InEffect(a, product, upTo, start))
  {
    if a == [] {
      assert a + b == b;
    } else {
      assert (a + b)[1..] == a[1..] + b;
      InEffectConcat(a[1..], b, product, upTo,
                     if a[0].product == product && a[0].from <= upTo then a[0].price else start);
    }
  }

  /** Rows that do not yet count change nothing. */
  lemma {:induction false} FutureRowIgnored(a: seq<Row>, r: Row, b: seq<Row>, product: Id, upTo: int, start: nat)
    requires r.from > upTo
    ensures InEffect(a + [r] + b, product, upTo, start) == InEffect(a + b, product, upTo, start)
  {
    InEffectConcat(a + [r], b, product, upTo, start);
    InEffectConcat(a, [r], product, upTo, start);
    NoneInEffect([r], product, upTo, InEffect(a, product, upTo, start));
    InEffectConcat(a, b, product, upTo, start);
  }

  lemma {:induction false} InsertSplits(rows: seq<Row>, r: Row) returns (at: nat)
    ensures at <= |rows| && Insert(rows, r) == rows[..at] + [r] + rows[at..]
    ensures Ordered(rows) ==> Ordered(Insert(rows, r))
  {
    if rows == [] || r.from < rows[0].from {
      at := 0;
    } else {
      var k := InsertSplits(rows[1..], r);
      at := k + 1;
      assert rows[..at] == [rows[0]] + rows[1..][..k] && rows[at..] == rows[1..][k..];
      if Ordered(rows) {
        InsertAbove(rows[1..], r, rows[0].from);
        var tail := Insert(rows[1..], r);
        assert forall j :: 0 < j <= |tail| ==> ([rows[0]] + tail)[j] == tail[j - 1];
      }
    }
  }

  lemma {:induction false} InsertAbove(rows: seq<Row>, r: Row, low: int)
    requires low <= r.from && forall i :: 0 <= i < |rows| ==> low <= rows[i].from
    ensures forall i :: 0 <= i < |Insert(rows, r)| ==> low <= Insert(rows, r)[i].from
  {
    if rows != [] && rows[0].from <= r.from {
      InsertAbove(rows[1..], r, low);
    }
  }

  lemma {:induction false} MarkedInEffect(rows: seq<Row>, now: int, product: Id, upTo: int, start: nat)
    ensures InEffect(Marked(rows, now), product, upTo, start) == InEffect(rows, product, upTo, start)
  {
    if rows != [] {
      assert Marked(rows, now)[1..] == Marked(rows[1..], now);
      MarkedInEffect(rows[1..], now, product, upTo,
                     if rows[0].product == product && rows[0].from <= upTo then rows[0].price else start);
    }
  }

  function LastRunOr(lastRun: Option<int>, rows: seq<Row>, product: Id, start: nat): nat {
    if lastRun.Some? then InEffect(rows, product, lastRun.value, start) else start
  }

  /** One more row at the end of the order: it decides exactly when it is in effect. */
  lemma {:induction false} InEffectSnoc(rows: seq<Row>, product: Id, upTo: int, start: nat)
    requires rows != []
    ensures var n := |rows| - 1;
            InEffect(rows, product, upTo, start) ==
            if rows[n].product == product && rows[n].from <= upTo then rows[n].price
            else InEffect(rows[..n], product, upTo, start)
  {
    var n := |rows| - 1;
    assert rows == rows[..n] + [rows[n]];
    InEffectConcat(rows[..n], [rows[n]], product, upTo, start);
    var last := [rows[n]];
    assert last[1..] == [];
  }

  /** What the sweep copies on top of the old price is the price in effect now. */
  lemma {:induction false} SweepCatchesUp(rows: seq<Row>, lastRun: Option<int>, now: int, product: Id, start: nat)
    requires Ordered(rows) && (lastRun.Some? ==> lastRun.value <= now)
    requires forall i :: 0 <= i < |rows| ==> (rows[i].applied <==> Before(rows[i].from, lastRun))
    ensures (if product in Latest(rows, now) then Latest(rows, now)[product] else LastRunOr(lastRun, rows, product, start))
            == InEffect(rows, product, now, start)
  {
    if rows != [] {
      var n := |rows| - 1;
      SweepCatchesUp(rows[..n], lastRun, now, product, start);
      InEffectSnoc(rows, product, now, start);
      if lastRun.Some? {
        InEffectSnoc(rows, product, lastRun.value, start);
      }
      if rows[n].applied {
        NothingDue(rows[..n], now, lastRun.value);
      }
    }
  }

  lemma {:induction false} NothingDue(rows: seq<Row>, now: int, lastRun: int)
    requires forall i :: 0 <= i < |rows| ==> rows[i].applied
    ensures Latest(rows, now) == map[]
  {
    if rows != [] {
      NothingDue(rows[..|rows| - 1], now, lastRun);
    }
  }

  predicate InTime(s: State, e: Event) {
    s.clock <= e.now
  }

  lemma {:induction false} SweepInv(s: State, now: int, start: map<Id, nat>)
    requires Inv(s, start) && s.clock <= now
    ensures Inv(Sweep(s, now), start)
  {
    var t := Sweep(s, now);
    forall p | p in start ensures t.prices[p] == InEffect(t.rows, p, now, start[p]) {
      SweepCatchesUp(s.rows, s.lastRun, now, p, start[p]);
      MarkedInEffect(s.rows, now, p, now, start[p]);
    }
  }

  lemma {:induction false} InsertedRows(rows: seq<Row>, r: Row, at: nat, lastRun: Option<int>)
    requires at <= |rows| && Distinct(rows) && !Taken(rows, r.product, r.from)
    requires !r.applied && !Before(r.from, lastRun)
    requires forall i :: 0 <= i < |rows| ==> (rows[i].applied <==> Before(rows[i].from, lastRun))
    ensures var t := rows[..at] + [r] + rows[at..];
            Distinct(t) && forall i :: 0 <= i < |t| ==> (t[i].applied <==> Before(t[i].from, lastRun))
  {
    var t := rows[..at] + [r] + rows[at..];
    assert forall i :: 0 <= i < |t| ==> t[i] == if i < at then rows[i] else if i == at then r else rows[i - 1];
  }

  lemma {:induction false} AddInv(s: State, r: Row, now: int, start: map<Id, nat>)
    requires Inv(s, start) && s.clock <= now
    ensures Inv(Add(s, r, now), start)
  {
    var t := Add(s, r, now);
    if t.rows != s.rows {
      var row := r.(applied := false);
      var at := InsertSplits(s.rows, row);
      assert s.rows == s.rows[..at] + s.rows[at..];
      InsertedRows(s.rows, row, at, s.lastRun);
      if s.lastRun.Some? {
        forall p | p in start ensures t.prices[p] == InEffect(t.rows, p, t.lastRun.value, start[p]) {
          FutureRowIgnored(s.rows[..at], row, s.rows[at..], p, s.lastRun.value, start[p]);
        }
      }
    }
  }

  lemma {:induction false} RemoveInv(s: State, i: nat, now: int, start: map<Id, nat>)
    requires Inv(s, start) && s.clock <= now
    ensures Inv(Remove(s, i, now), start)
  {
    var t := Remove(s, i, now);
    if t.rows != s.rows {
      var a, b := s.rows[..i], s.rows[i + 1..];
      assert s.rows == a + [s.rows[i]] + b;
      if s.lastRun.Some? {
        forall p | p in start ensures t.prices[p] == InEffect(t.rows, p, t.lastRun.value, start[p]) {
          FutureRowIgnored(a, s.rows[i], b, p, s.lastRun.value, start[p]);
        }
      }
    }
  }

  ghost predicate ClockAdvances(s: State, events: seq<Event>)
    decreases |events|
  {
    events != [] ==> InTime(s, events[0]) && ClockAdvances(Next(s, events[0]), events[1..])
  }

  lemma {:induction false} RunInv(s: State, events: seq<Event>, start: map<Id, nat>)
    requires Inv(s, start) && ClockAdvances(s, events)
    ensures Inv(Run(s, events), start)
    decreases |events|
  {
    if events != [] {
      var e := events[0];
      match e {
        case Schedule(row, now) => AddInv(s, row, now, start);
        case Unschedule(i, now) => RemoveInv(s, i, now, start);
        case RunSweep(now) => SweepInv(s, now, start);
      }
      RunInv(Next(s, e), events[1..], start);
    }
  }

  /** Row k of the product took effect by `upTo`, and none of its later ones did. */
  predicate Governs(rows: seq<Row>, product: Id, upTo: int, k: nat) {
    && k < |rows| && rows[k].product == product && rows[k].from <= upTo
    && forall i :: 0 <= i < |rows| && rows[i].product == product && rows[i].from <= upTo ==>
         rows[i].from <= rows[k].from
  }

  predicate NoneYet(rows: seq<Row>, product: Id, upTo: int) {
    forall i :: 0 <= i < |rows| && rows[i].product == product ==> rows[i].from > upTo
  }

  lemma {:induction false} NoneYetIsStart(rows: seq<Row>, product: Id, upTo: int, start: nat)
    requires NoneYet(rows, product, upTo)
    ensures InEffect(rows, product, upTo, start) == start
  {
    if rows != [] {
      NoneYetIsStart(rows[1..], product, upTo, start);
    }
  }

  /** Of the rows in effect, the one with the greatest moment decides. */
  lemma {:induction false} InEffectIsGreatest(rows: seq<Row>, product: Id, upTo: int, start: nat, k: nat)
    requires Ordered(rows) && Distinct(rows) && Governs(rows, product, upTo, k)
    ensures InEffect(rows, product, upTo, start) == rows[k].price
  {
    var n := |rows| - 1;
    InEffectSnoc(rows, product, upTo, start);
    if k < n {
      assert rows[k].from <= rows[n].from;
      InEffectIsGreatest(rows[..n], product, upTo, start, k);
    }
  }

  /**
   * However late sweeps run or are skipped, after any history each price is that of the change with
   * the greatest moment the last sweep reached, or the initial price if it reached none.
   */
  lemma {:induction false} PriceAfterAnyHistory(prices: map<Id, nat>, clock: int, events: seq<Event>, product: Id)
    requires product in prices && ClockAdvances(State(prices, [], clock, None), events)
    ensures var t := Run(State(prices, [], clock, None), events);
            && product in t.prices
            && (t.lastRun.None? || NoneYet(t.rows, product, t.lastRun.value) ==>
                  t.prices[product] == prices[product])
            && forall k: nat :: t.lastRun.Some? && Governs(t.rows, product, t.lastRun.value, k) ==>
                 t.prices[product] == t.rows[k].price
  {
    var t := Run(State(prices, [], clock, None), events);
    RunInv(State(prices, [], clock, None), events, prices);
    if t.lastRun.Some? {
      if NoneYet(t.rows, product, t.lastRun.value) {
        NoneYetIsStart(t.rows, product, t.lastRun.value, prices[product]);
      }
      forall k: nat | Governs(t.rows, product, t.lastRun.value, k) ensures t.prices[product] == t.rows[k].price {
        InEffectIsGreatest(t.rows, product, t.lastRun.value, prices[product], k);
      }
    }
  }
}
