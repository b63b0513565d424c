/** A handler nobody interrupts does in the interleaved model what it does in the serialised one. */
module RaceSerial {
  import opened Base
  import opened Lifecycle
  import opened Domain
  import opened DigitalDelivery
  import opened OrderStatus
  import opened Settlement
  import opened Frames
  import opened SettlementLaws
  import opened StatusLaws
  import Race

  /** The request arrives and takes all its steps, of which it has at most four, without a failure. */
  function Alone(s: Race.State, id: Id, job: Race.Job): Race.State {
    Twice(Twice(Race.Next(s, Race.Arrive(id, job)), id), id)
  }

  function Twice(s: Race.State, id: Id): Race.State {
    Race.Next(Race.Next(s, Race.Step(id, true)), Race.Step(id, true))
  }

  /** Who is done stays done. */
  lemma {:induction false} Done(s: Race.State, id: Id)
    requires id in s.jobs && (s.jobs[id].Over? || s.jobs[id].Delivered?)
    ensures Twice(s, id) == s
  {
  }

  /** Everything but the list of requests is as it was. */
  ghost predicate SameButJobs(s: Race.State, t: Race.State) {
    t == s.(jobs := t.jobs)
  }

  lemma {:induction false} Arrives(s: Race.State, id: Id, job: Race.Job)
    requires id !in s.jobs && Race.Arrival(s, job) && !job.Checkout?
    ensures var t := Race.Next(s, Race.Arrive(id, job)); SameButJobs(s, t) && id in t.jobs && t.jobs[id] == job
  {
  }

  /** The files found for the order, if it were delivered now. */
  function Files(db: Db, o: Order): seq<Asset> {
    AssetsFor(db.assets, o.items)
  }

  function LinksOf(db: Db, o: Order): Race.Links {
    match o.delivery
    case None => if Files(db, o) == [] then Race.NoFiles else Race.NoneYet
    case Some(d) => if d.status == Revoked then Race.Off else Race.Live
  }

  /** The interleaved state shows order i as the tables have it, and nobody holds its row. */
  ghost predicate Shows(s: Race.State, db: Db, i: nat) {
    && i < |db.orders| && s.row == db.orders[i].row && s.lock == None
    && s.links == LinksOf(db, db.orders[i]) && s.checkouts.current == db.orders[i].paypalOrder
  }

  /** From there both models agree on the row, its links, its checkout, and the refunds asked for. */
  ghost predicate Agree(s: Race.State, t: Race.State, db: Db, u: Db, i: nat) {
    && Shows(t, u, i)
    && (forall p :: p in t.asked - s.asked ==> (s.row.how, p) in u.asked)
    && (forall how, p :: (how, p) in u.asked - db.asked ==> how == s.row.how && p in t.asked)
  }

  lemma {:induction false} RevokedLinks(db: Db, o: Order)
    ensures LinksOf(db, Revoke(o)) == Race.Cut(LinksOf(db, o))
  {
  }

  /** A status change by the owner, whose refund the provider accepts. */
  lemma {:induction false} StatusChangeAlone(s: Race.State, db: Db, i: nat, id: Id, target: Status)
    requires Shows(s, db, i) && id !in s.jobs
    ensures var t, u := Alone(s, id, Race.Staff(target)), UpdateStatus(db, i, target, true, true).GetOr(db);
            && Agree(s, t, db, u, i)
            && t.given - s.given == (if UpdateStatus(db, i, target, true, true).Some?
                                        && target == Cancelled && db.orders[i].row.status != Cancelled then 1 else 0)
  {
    var o := db.orders[i];
    RevokedLinks(db, o.(row := Moved(o.row, o.row, target)));
    StaffAlone(s, id, target);
    if UpdateStatus(db, i, target, true, true).Some? {
      ChangeWrites(db, i, target, true, true);
    }
  }

  lemma {:induction false} StaffAlone(s: Race.State, id: Id, target: Status)
    requires s.lock == None && id !in s.jobs
    ensures var t := Alone(s, id, Race.Staff(target));
            && t.lock == None && t.checkouts == s.checkouts
            && if !MayMove(s.row, target) then t.row == s.row && t.links == s.links && t.asked == s.asked && t.given == s.given
               else
                 && t.row == Moved(s.row, s.row, target) && t.links == Race.CutOnMove(s.links, s.row, target)
                 && t.asked == s.asked + (if RefundOnMove(s.row, target).Some? then {RefundOnMove(s.row, target).value} else {})
                 && t.given == s.given + if GivesBack(s.row, target) then 1 else 0
  {
    var here := Race.Next(s, Race.Arrive(id, Race.Staff(target)));
    Arrives(s, id, Race.Staff(target));
    StaffClaims(here, id, target);
    var half := Twice(here, id);
    if half.jobs[id].Over? {
      Done(half, id);
    } else {
      StaffWrites(half, id, target);
    }
  }

  lemma {:induction false} StaffClaims(s: Race.State, id: Id, target: Status)
    requires s.lock == None && id in s.jobs && s.jobs[id] == Race.Staff(target)
    ensures var t := Twice(s, id);
            && id in t.jobs
            && if MayMove(s.row, target) && (target != s.row.status || ReturnsMoney(s.row, target))
               then t == s.(jobs := t.jobs, lock := Some(id)) && t.jobs[id] == Race.StaffHolds(target, s.row)
               else
                 && t == s.(jobs := t.jobs, links := t.links) && t.jobs[id] == Race.Over
                 && t.links == if MayMove(s.row, target) then Race.CutOnMove(s.links, s.row, target) else s.links
  {
    var read := Race.Next(s, Race.Step(id, true));
    assert read == s.(jobs := read.jobs) && id in read.jobs;
    assert read.jobs[id] == if MayMove(s.row, target) then Race.StaffRead(target, s.row) else Race.Over;
  }

  lemma {:induction false} StaffWrites(s: Race.State, id: Id, target: Status)
    requires id in s.jobs && s.jobs[id] == Race.StaffHolds(target, s.row)
    ensures var t, back := Twice(s, id), RefundOnMove(s.row, target);
            && t.lock == None && t.checkouts == s.checkouts
            && t.row == Moved(s.row, s.row, target) && t.links == Race.CutOnMove(s.links, s.row, target)
            && t.asked == s.asked + (if back.Some? then {back.value} else {})
            && t.given == s.given + if GivesBack(s.row, target) then 1 else 0
  {
    var back, next := RefundOnMove(s.row, target), Race.Next(s, Race.Step(id, true));
    assert id in next.jobs;
    if back.Some? {
      assert next.jobs[id] == Race.StaffPaidBack(target, s.row, back.value);
      assert next == s.(jobs := next.jobs, asked := s.asked + {back.value});
    } else {
      assert next.jobs[id] == Race.Over;
    }
  }

  /** A report of a payment, whose amount is right just when the interleaved model says so. */
  lemma {:induction false} SettlementAlone(s: Race.State, db: Db, i: nat, id: Id, r: Report, now: int)
    requires Shows(s, db, i) && id !in s.jobs && Gateway(s.row.how) && r.payment.Some?
    requires Race.Own(s, r.payment.value) <==> Genuine(db.orders[i], r)
    requires r.how == s.row.how && (r.payment.value in s.exact <==> Exact(db.orders[i], r))
    ensures Agree(s, Alone(s, id, Race.Webhook(r.payment.value)), db, Settle(db, i, r, now), i)
  {
    var o := db.orders[i];
    WebhookAlone(s, id, r.payment.value);
    if Waiting(o.row) && Genuine(o, r) {
      PaysIffExact(db, i, r, now);
      if Exact(o, r) {
        SettleDelivers(db, i, r, now);
      }
    } else {
      OtherReportsOnlyReturn(db, i, r, now);
    }
  }

  /** Confirming an order turns its links on if it has files and had none. */
  lemma {:induction false} SettleDelivers(db: Db, i: nat, r: Report, now: int)
    requires i < |db.orders| && Waiting(db.orders[i].row) && Genuine(db.orders[i], r) && Exact(db.orders[i], r)
    ensures var o, t := db.orders[i], Settle(db, i, r, now);
            && i < |t.orders| && t.orders[i].paypalOrder == o.paypalOrder
            && LinksOf(t, t.orders[i]) == if LinksOf(db, o) == Race.NoneYet then Race.Live else LinksOf(db, o)
  {
    var settled := db.(orders := db.orders[i := SettledOrder(db.orders[i], r.payment)]);
    DeliverSame(settled, i, now);
    DeliveryMade(settled, i, now);
  }

  lemma {:induction false} DeliveryMade(db: Db, i: nat, now: int)
    requires i < |db.orders|
    ensures var o, t := db.orders[i], Deliver(db, i, now);
            && i < |t.orders| && t.assets == db.assets && t.orders[i].paypalOrder == o.paypalOrder
            && t.orders[i].items == o.items
            && LinksOf(t, t.orders[i]) == if LinksOf(db, o) == Race.NoneYet then Race.Live else LinksOf(db, o)
  {
  }

  lemma {:induction false} WebhookAlone(s: Race.State, id: Id, payment: Id)
    requires s.lock == None && id !in s.jobs && Gateway(s.row.how)
    ensures var t := Alone(s, id, Race.Webhook(payment));
            && t.lock == None && t.checkouts == s.checkouts
            && var verdict := Judge(s.row, Some(payment), payment in s.exact);
            && t.row == (if Race.Own(s, payment) && verdict == TryConfirm then Settled(s.row, Some(payment)) else s.row)
            && t.asked == s.asked + (if Race.Own(s, payment) && verdict == GiveBack then {payment} else {})
            && t.links == (if Race.Own(s, payment) && verdict == TryConfirm && s.links == Race.NoneYet then Race.Live
                           else s.links)
  {
    var here := Race.Next(s, Race.Arrive(id, Race.Webhook(payment)));
    Arrives(s, id, Race.Webhook(payment));
    var read := Race.Next(here, Race.Step(id, true));
    WebhookReads(here, id, payment);
    if read.jobs[id].Delivered? {
      assert Race.Next(read, Race.Step(id, true)) == read;
      Done(read, id);
    } else if read.jobs[id].WebhookGivesBack? {
      var given := Race.Next(read, Race.Step(id, true));
      assert given == read.(jobs := given.jobs, asked := read.asked + {payment}) && given.jobs[id].Delivered?;
      Done(given, id);
    } else {
      WebhookConfirms(read, id, payment);
    }
  }

  lemma {:induction false} WebhookReads(s: Race.State, id: Id, payment: Id)
    requires id in s.jobs && s.jobs[id] == Race.Webhook(payment)
    ensures var t := Race.Next(s, Race.Step(id, true));
            && SameButJobs(s, t) && id in t.jobs
            && t.jobs[id] == if !Race.Own(s, payment) then Race.Delivered(payment, s.row, false)
                             else match Judge(s.row, Some(payment), payment in s.exact)
                                  case Ignore => Race.Delivered(payment, s.row, true)
                                  case GiveBack => Race.WebhookGivesBack(payment, s.row)
                                  case TryConfirm => Race.WebhookRead(payment, s.row)
  {
  }

  lemma {:induction false} WebhookConfirms(s: Race.State, id: Id, payment: Id)
    requires s.lock == None && Claimable(s.row) && id in s.jobs && s.jobs[id] == Race.WebhookRead(payment, s.row)
    ensures var t := Race.Next(Twice(s, id), Race.Step(id, true));
            && t.lock == None && t.checkouts == s.checkouts && t.asked == s.asked
            && t.row == Settled(s.row, Some(payment))
            && t.links == if s.links == Race.NoneYet then Race.Live else s.links
  {
    var held := Race.Next(s, Race.Step(id, true));
    assert held == s.(jobs := held.jobs, lock := Some(id)) && held.jobs[id] == Race.WebhookHolds(payment, s.row);
    var settled := Race.Next(held, Race.Step(id, true));
    assert settled.jobs[id].Delivered?;
    assert Race.Next(settled, Race.Step(id, true)) == settled;
  }

  /** The sweep reaching the order. */
  lemma {:induction false} ExpiryAlone(s: Race.State, db: Db, i: nat, id: Id)
    requires Shows(s, db, i) && id !in s.jobs && Gateway(s.row.how)
    ensures var t, u := Alone(s, id, Race.Sweep), Expire(db, i);
            Agree(s, t, db, u, i) && t.given == s.given + if u == db then 0 else 1
  {
    var o := db.orders[i];
    SweepAlone(s, id);
    if Abandoned(o.row) {
      assert Expire(db, i).orders[i] == o.(row := Expired(o.row)) && Expired(o.row) != o.row;
    }
  }

  lemma {:induction false} SweepAlone(s: Race.State, id: Id)
    requires s.lock == None && id !in s.jobs && Gateway(s.row.how)
    ensures var t := Alone(s, id, Race.Sweep);
            t == s.(jobs := t.jobs, row := if Abandoned(s.row) then Expired(s.row) else s.row,
                    given := s.given + if Abandoned(s.row) then 1 else 0)
  {
    var here := Race.Next(s, Race.Arrive(id, Race.Sweep));
    Arrives(s, id, Race.Sweep);
    var held := Race.Next(here, Race.Step(id, true));
    assert held.jobs[id] == if Abandoned(s.row) then Race.SweepHolds else Race.Over;
    var half := Twice(here, id);
    assert half.jobs[id] == Race.Over;
    Done(half, id);
  }

  lemma {:induction false} LoseCuts(db: Db, i: nat, capture: Id, refunded: bool)
    requires i < |db.orders| && db.orders[i].row.how == PayPal && db.orders[i].row.charge == Some(capture)
    ensures var o, t := db.orders[i], Lose(db, i, capture, refunded);
            && |t.orders| == |db.orders| && t.asked == db.asked && t.orders[i].paypalOrder == o.paypalOrder
            && t.orders[i].row == (if refunded then LostToRefund(o.row) else LostToDispute(o.row))
            && LinksOf(t, t.orders[i]) == Race.Cut(LinksOf(db, o))
  {
    var o := db.orders[i];
    var lost := o.(row := if refunded then LostToRefund(o.row) else LostToDispute(o.row));
    RevokedLinks(db, lost);
    RevokeSame(lost);
    assert Lose(db, i, capture, refunded).orders[i] == Revoke(lost);
  }

  /** A refund or dispute on PayPal's side. */
  lemma {:induction false} ReversalAlone(s: Race.State, db: Db, i: nat, id: Id, capture: Id, refunded: bool)
    requires Shows(s, db, i) && id !in s.jobs && s.row.how == PayPal
    ensures Agree(s, Alone(s, id, Race.Reversal(capture, refunded)), db, Lose(db, i, capture, refunded), i)
  {
    LossAlone(s, id, capture, refunded);
    if s.row.charge == Some(capture) {
      LoseCuts(db, i, capture, refunded);
    }
  }

  lemma {:induction false} LossAlone(s: Race.State, id: Id, capture: Id, refunded: bool)
    requires s.lock == None && id !in s.jobs && s.row.how == PayPal
    ensures var t := Alone(s, id, Race.Reversal(capture, refunded));
            && t.lock == None && t.checkouts == s.checkouts && t.asked == s.asked
            && if s.row.charge != Some(capture) then t.row == s.row && t.links == s.links
               else t.row == (if refunded then LostToRefund(s.row) else LostToDispute(s.row))
                    && t.links == Race.Cut(s.links)
  {
    var here := Race.Next(s, Race.Arrive(id, Race.Reversal(capture, refunded)));
    Arrives(s, id, Race.Reversal(capture, refunded));
    var found := Race.Next(here, Race.Step(id, true));
    assert SameButJobs(here, found) && id in found.jobs;
    if s.row.charge == Some(capture) {
      assert found.jobs[id] == Race.ReversalFound(capture, refunded);
      LossWrites(found, id, capture, refunded);
    } else {
      assert found.jobs[id] == Race.Over;
      assert Race.Next(found, Race.Step(id, true)) == found;
      Done(found, id);
    }
  }

  lemma {:induction false} LossWrites(s: Race.State, id: Id, capture: Id, refunded: bool)
    requires s.lock == None && id in s.jobs && s.jobs[id] == Race.ReversalFound(capture, refunded)
    ensures var t := Race.Next(Twice(s, id), Race.Step(id, true));
            && t.lock == None && t.checkouts == s.checkouts && t.asked == s.asked
            && t.row == (if refunded then LostToRefund(s.row) else LostToDispute(s.row)) && t.links == Race.Cut(s.links)
  {
    var held := Race.Next(s, Race.Step(id, true));
    if Race.Reversible(s.row, refunded) {
      assert held.jobs[id] == Race.ReversalHolds(capture, refunded) && held == s.(jobs := held.jobs, lock := Some(id));
    } else {
      assert held.jobs[id] == Race.Over && held == s.(jobs := held.jobs, links := Race.Cut(s.links));
    }
    var lost := Race.Next(held, Race.Step(id, true));
    assert lost.jobs[id] == Race.Over;
    assert Race.Next(lost, Race.Step(id, true)) == lost;
  }

  /** The opening of a PayPal checkout. */
  lemma {:induction false} CheckoutAlone(s: Race.State, db: Db, i: nat, id: Id, reference: Id)
    requires Shows(s, db, i) && id !in s.jobs && s.row.how == PayPal && reference !in s.checkouts.issued
    ensures Agree(s, Alone(s, id, Race.Checkout(reference)), db, OpenPayPal(db, i, reference).GetOr(db), i)
  {
    OpensAlone(s, id, reference);
  }

  lemma {:induction false} OpensAlone(s: Race.State, id: Id, reference: Id)
    requires s.lock == None && id !in s.jobs && s.row.how == PayPal && reference !in s.checkouts.issued
    ensures var t := Alone(s, id, Race.Checkout(reference));
            && t == s.(jobs := t.jobs, checkouts := t.checkouts)
            && t.checkouts.current == if Claimable(s.row) then Some(reference) else s.checkouts.current
  {
    var here := Race.Next(s, Race.Arrive(id, Race.Checkout(reference)));
    assert here == s.(jobs := here.jobs, checkouts := here.checkouts) && here.checkouts.current == s.checkouts.current;
    assert id in here.jobs && here.jobs[id] == Race.Checkout(reference);
    var read := Race.Next(here, Race.Step(id, true));
    assert read.jobs[id] == if Claimable(s.row) then Race.CheckoutRead(reference) else Race.Over;
    var half := Twice(here, id);
    assert half.jobs[id] == Race.Over;
    Done(half, id);
  }
}
