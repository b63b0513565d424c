/** What a status change and a sweep come to: refusals, refunds, and every column and table they write. */
module StatusLaws {
  import opened Base
  import opened Stock
  import opened Lifecycle
  import opened Domain
  import opened OrderStatus
  import opened EditingLaws

  predicate Online(how: Method) {
    how in {Stripe, MercadoPago, PayPal}
  }

  predicate Closed(status: Status) {
    status in {Cancelled, Refunded}
  }

  /** The provider is asked for the charge of a paid online order when it is closed. */
  function Refund(row: Row, target: Status): set<(Method, Id)> {
    if row.pay == Paid && Online(row.how) && row.charge.Some? && row.status != target && Closed(target) then
      {(row.how, row.charge.value)}
    else {}
  }

  /** Returning money, or saying so, needs the owner; and the provider, if there is one to ask, must accept. */
  lemma {:induction false} ChangedIff(db: Db, i: nat, target: Status, canRefund: bool, accepted: bool)
    ensures UpdateStatus(db, i, target, canRefund, accepted).Some? <==>
            && i < |db.orders|
            && var row := db.orders[i].row;
            && (Closed(row.status) ==> target == row.status)
            && (target == Refunded || (target == Cancelled && row.pay == Paid && Online(row.how)) ==> canRefund)
            && (Refund(row, target) != {} ==> accepted)
  {
    if i < |db.orders| {
      var row := db.orders[i].row;
      assert RefundOnMove(row, target).Some? ==> (row.how, row.charge.value) in Refund(row, target);
    }
  }

  /** The order's columns after the change; its links are off if it closed while paid. */
  lemma {:induction false} ChangeWrites(db: Db, i: nat, target: Status, canRefund: bool, accepted: bool)
    requires UpdateStatus(db, i, target, canRefund, accepted).Some?
    ensures var o, t := db.orders[i], UpdateStatus(db, i, target, canRefund, accepted).value;
            var back := o.row.pay == Paid && (target == Refunded || (target == Cancelled && Online(o.row.how)));
            && i < |t.orders| && t.asked == db.asked + Refund(o.row, target)
            && t == db.(orders := db.orders[i := t.orders[i]], shelf := t.shelf, coupons := t.coupons, asked := t.asked)
            && t.orders[i] == o.(row := Row(o.row.how, target, if back then Returned else o.row.pay, o.row.charge),
                                 delivery := t.orders[i].delivery)
            && if Closed(target) && o.row.pay == Paid && o.delivery.Some?
               then t.orders[i].delivery.Some? && t.orders[i].delivery.value.status == Revoked
               else t.orders[i].delivery == o.delivery
  {
  }

  /** A coupon row's counter after one use is given back, which never takes it below zero. */
  ghost predicate UseGivenBack(before: map<Id, Coupon>, after: map<Id, Coupon>, coupon: Option<Id>) {
    && after.Keys == before.Keys
    && forall c :: c in before ==>
         after[c] == if coupon == Some(c) && before[c].used > 0 then before[c].(used := before[c].used - 1) else before[c]
  }

  ghost predicate PiecesGivenBack(before: Shelf, after: Shelf, items: seq<Item>) {
    && after.Keys == before.Keys
    && forall slot :: slot in before ==> after[slot] == before[slot] + Pieces(items, slot)
  }

  lemma {:induction false} Freed(db: Db, o: Order, stock: bool)
    ensures var t := FreeOrder(db, o, stock);
            && UseGivenBack(db.coupons, t.coupons, o.coupon)
            && (if stock then PiecesGivenBack(db.shelf, t.shelf, o.items) else t.shelf == db.shelf)
  {
    ReleaseGives(db.shelf, HeldBy(o.items));
    forall slot | slot in db.shelf ensures Asked(HeldBy(o.items), slot) == Pieces(o.items, slot) {
      HeldPieces(o.items, slot);
    }
  }

  /** What the order took goes back when it becomes CANCELLED, and at no other change. */
  lemma {:induction false} FreedIffCancelled(db: Db, i: nat, target: Status, canRefund: bool, accepted: bool)
    requires UpdateStatus(db, i, target, canRefund, accepted).Some?
    ensures var o, t := db.orders[i], UpdateStatus(db, i, target, canRefund, accepted).value;
            if target == Cancelled && o.row.status != Cancelled then
              && UseGivenBack(db.coupons, t.coupons, o.coupon)
              && (if db.store.tracks then PiecesGivenBack(db.shelf, t.shelf, o.items) else t.shelf == db.shelf)
            else t.shelf == db.shelf && t.coupons == db.coupons
  {
    Freed(db, db.orders[i], db.store.tracks);
  }

  // ---- The sweep --------------------------------------------------------------------------------------

  /** An online order neither paid nor touched in the two hours since it was placed. */
  predicate Overdue(o: Order, now: int) {
    && Online(o.row.how) && o.row.status == Pending && o.row.pay == Unpaid
    && now - o.createdAt > 7_200_000
  }

  ghost predicate IsOverdue(orders: seq<Order>, now: int, i: nat) {
    i < |orders| && Overdue(orders[i], now)
  }

  ghost function AllOverdue(orders: seq<Order>, now: int): set<nat> {
    set i: nat | 0 <= i < |orders| && IsOverdue(orders, now, i)
  }

  ghost function Elements(ids: seq<nat>): set<nat> {
    set id | id in ids
  }

  ghost predicate Once(ids: seq<nat>) {
    forall a, b :: 0 <= a < b < |ids| ==> ids[a] != ids[b]
  }

  lemma {:induction false} ElementsOnce(ids: seq<nat>)
    requires Once(ids)
    ensures |Elements(ids)| == |ids|
  {
    if ids != [] {
      var n := |ids| - 1;
      ElementsOnce(ids[..n]);
      assert ids == ids[..n] + [ids[n]];
      assert Elements(ids) == Elements(ids[..n]) + {ids[n]};
      assert ids[n] !in Elements(ids[..n]);
    }
  }

  /** The selection is overdue orders only, each once, and all of them unless the batch is full. */
  lemma {:induction false} SelectionLaw(orders: seq<Order>, now: int, room: nat)
    ensures var ids := Selection(orders, now - STALE_ORDER_TTL, room);
            && |ids| <= room && Once(ids) && Elements(ids) <= AllOverdue(orders, now)
            && (|ids| < room ==> Elements(ids) == AllOverdue(orders, now))
  {
    if orders != [] {
      var n := |orders| - 1;
      var before, ids := Selection(orders[..n], now - STALE_ORDER_TTL, room), Selection(orders, now - STALE_ORDER_TTL, room);
      SelectionLaw(orders[..n], now, room);
      forall i: nat ensures IsOverdue(orders, now, i) <==> IsOverdue(orders[..n], now, i) || (i == n && Overdue(orders[n], now)) {
      }
      assert AllOverdue(orders, now) == AllOverdue(orders[..n], now) + if Overdue(orders[n], now) then {n} else {};
      assert Stale(orders[n], now - STALE_ORDER_TTL) <==> Overdue(orders[n], now);
      assert Elements(ids) == Elements(before) + if |ids| > |before| then {n} else {};
      assert forall id :: id in before ==> id in Elements(before);
    }
  }

  function CancelledOrder(o: Order): Order {
    o.(row := Row(o.row.how, Cancelled, o.row.pay, o.row.charge))
  }

  lemma {:induction false} ExpiresOne(db: Db, i: nat)
    ensures var t := Expire(db, i);
            && |t.orders| == |db.orders| && t.asked == db.asked
            && forall j :: 0 <= j < |db.orders| && j != i ==> t.orders[j] == db.orders[j]
    ensures (i < |db.orders| && Online(db.orders[i].row.how)
             && db.orders[i].row.status == Pending && db.orders[i].row.pay == Unpaid) ==>
              Expire(db, i).orders[i] == CancelledOrder(db.orders[i])
  {
  }

  lemma {:induction false} ExpiresAll(db: Db, ids: seq<nat>, now: int)
    requires Once(ids) && Elements(ids) <= AllOverdue(db.orders, now)
    ensures var t := ExpireAll(db, ids);
            && |t.orders| == |db.orders| && t.asked == db.asked
            && forall i :: 0 <= i < |db.orders| ==>
                 t.orders[i] == if i in ids then CancelledOrder(db.orders[i]) else db.orders[i]
  {
    if ids != [] {
      var n := |ids| - 1;
      var last := ids[n];
      assert ids == ids[..n] + [last];
      assert Elements(ids[..n]) <= Elements(ids) && last in Elements(ids);
      ExpiresAll(db, ids[..n], now);
      assert IsOverdue(db.orders, now, last);
      assert last !in ids[..n];
      ExpiresOne(ExpireAll(db, ids[..n]), last);
    }
  }

  /**
   * A sweep cancels overdue online orders, all of them when they are at most 500 and 500 of them
   * otherwise, and leaves every other order as it is.
   */
  lemma {:induction false} SweepCancelsOverdue(db: Db, now: int)
    ensures exists ids: set<nat> :: SweptExactly(db, Sweep(db, now), now, ids)
  {
    var selected := Selection(db.orders, now - STALE_ORDER_TTL, SWEEP_BATCH);
    SelectionLaw(db.orders, now, SWEEP_BATCH);
    ElementsOnce(selected);
    ExpiresAll(db, selected, now);
    CountOfPart(Elements(selected), AllOverdue(db.orders, now));
    assert SweptExactly(db, Sweep(db, now), now, Elements(selected));
  }

  lemma {:induction false} CountOfPart(part: set<nat>, whole: set<nat>)
    requires part <= whole
    ensures |part| <= |whole| && (|part| == |whole| ==> part == whole)
  {
    assert whole == part + (whole - part);
  }

  ghost predicate SweptExactly(db: Db, t: Db, now: int, ids: set<nat>) {
    && ids <= AllOverdue(db.orders, now)
    && (|AllOverdue(db.orders, now)| <= 500 ==> ids == AllOverdue(db.orders, now))
    && (|AllOverdue(db.orders, now)| > 500 ==> |ids| == 500)
    && |t.orders| == |db.orders| && t.asked == db.asked
    && forall i :: 0 <= i < |db.orders| ==>
         t.orders[i] == if i in ids then CancelledOrder(db.orders[i]) else db.orders[i]
  }
}
