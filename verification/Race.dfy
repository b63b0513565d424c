/**
 * One order under any interleaving of its handlers. Every handler is split at its read, its
 * conditional UPDATE (which takes the row lock) and its commit; an UPDATE that matches waits while
 * another transaction holds the row, reads see the last committed row, and a transaction may abort at
 * any point after its claim. The order's total is not edited, so whether a payment's amount is right
 * is a fixed fact about the payment.
 */
module Race {
  import opened Base
  import opened Lifecycle

  /** Where one handler instance stands. `seen` is the row it read first. */
  datatype Job =
    | Staff(target: Status)
    | StaffRead(target: Status, seen: Row)
    | StaffHolds(target: Status, seen: Row)
    | StaffPaidBack(target: Status, seen: Row, back: Id)
    | Webhook(payment: Id)
    | WebhookRead(payment: Id, seen: Row)
    | WebhookHolds(payment: Id, seen: Row)
    | WebhookLost(payment: Id, seen: Row)
    | WebhookGivesBack(payment: Id, seen: Row)
    | Delivered(payment: Id, seen: Row, mine: bool)
    | Sweep
    | SweepHolds
    | Reversal(capture: Id, refunded: bool)
    | ReversalFound(capture: Id, refunded: bool)
    | ReversalHolds(capture: Id, refunded: bool)
    | Checkout(reference: Id)
    | CheckoutRead(reference: Id)
    | Over

  /** The download links of an order, made when it is first paid if it has files. */
  datatype Links = NoFiles | NoneYet | Live | Off

  /** The order's current PayPal order, those PayPal issued for it so far, and the one each capture is for. */
  datatype Checkouts = Checkouts(current: Option<Id>, issued: set<Id>, of: map<Id, Id>)

  /**
   * `row` is committed; `given` counts committed give-backs of stock and coupon use, `asked` the
   * payments some provider was asked to refund, `torn` those whose refund was accepted by a
   * transaction that then failed to commit, `exact` the payments of the right amount, `reversed` the
   * captures PayPal took back by itself, and `disputed` says a dispute was written.
   */
  datatype State = State(
    row: Row,
    lock: Option<Id>,
    jobs: map<Id, Job>,
    given: nat,
    asked: set<Id>,
    torn: set<Id>,
    invoices: nat,
    exact: set<Id>,
    reversed: set<Id>,
    disputed: bool,
    checkouts: Checkouts,
    links: Links
  )

  /** A request, webhook or sweep arrives, or one already here takes its next step, which `ok` says succeeds. */
  datatype Event = Arrive(id: Id, job: Job) | Step(id: Id, ok: bool)

  /**
   * Staff move any order; payments and the sweep concern online orders, reversals and checkouts only
   * PayPal ones. PayPal issues every checkout a new reference.
   */
  predicate Arrival(s: State, job: Job) {
    || job.Staff?
    || ((job.Webhook? || job.Sweep?) && Gateway(s.row.how))
    || (job.Reversal? && s.row.how == PayPal)
    || (job.Checkout? && s.row.how == PayPal && job.reference !in s.checkouts.issued)
  }

  /** The payment is for the order's current PayPal order; other providers know no such thing. */
  predicate Own(s: State, payment: Id) {
    s.row.how != PayPal || (payment in s.checkouts.of && s.checkouts.current == Some(s.checkouts.of[payment]))
  }

  /** What revoking a delivery does to its links; without a delivery there is nothing to do. */
  function Cut(links: Links): Links {
    if links == Live then Off else links
  }

  /** Staff closing an order revoke its delivery if they read it as paid. */
  function CutOnMove(links: Links, seen: Row, target: Status): Links {
    if Terminal(target) && seen.pay == Paid then Cut(links) else links
  }

  /** The shop serves the order's files. */
  predicate Downloadable(s: State) {
    s.links == Live && s.row.pay == Paid
  }

  predicate Holding(job: Job) {
    job.StaffHolds? || job.StaffPaidBack? || job.WebhookHolds? || job.SweepHolds? || job.ReversalHolds?
  }

  predicate StaffJob(job: Job) {
    job.Staff? || job.StaffRead? || job.StaffHolds? || job.StaffPaidBack?
  }

  predicate WebhookJob(job: Job) {
    job.Webhook? || job.WebhookRead? || job.WebhookHolds? || job.WebhookLost? || job.WebhookGivesBack?
  }

  predicate ReversalJob(job: Job) {
    job.Reversal? || job.ReversalFound? || job.ReversalHolds?
  }

  predicate CheckoutJob(job: Job) {
    job.Checkout? || job.CheckoutRead?
  }

  function Put(s: State, id: Id, job: Job): State {
    s.(jobs := s.jobs[id := job])
  }

  function Lock(s: State, id: Id, job: Job): State {
    Put(s, id, job).(lock := Some(id))
  }

  /** The transaction ends, leaving `row` committed. */
  function Unlock(s: State, id: Id, job: Job, row: Row): State {
    Put(s, id, job).(lock := None, row := row)
  }

  function CommitMove(s: State, id: Id, target: Status, seen: Row): State {
    Unlock(s, id, Over, Moved(seen, s.row, target)).(
      given := s.given + if GivesBack(seen, target) then 1 else 0,
      links := CutOnMove(s.links, seen, target))
  }

  function StaffStep(s: State, id: Id, job: Job, ok: bool): State
    requires StaffJob(job)
  {
    match job
    case Staff(target) =>
      Put(s, id, if MayMove(s.row, target) then StaffRead(target, s.row) else Over)
    case StaffRead(target, seen) =>
      if target == seen.status && !ReturnsMoney(seen, target) then
        Put(s, id, Over).(links := if ok then CutOnMove(s.links, seen, target) else s.links)
      else if target != seen.status && s.row.status != seen.status then Put(s, id, Over)
      else if s.lock.Some? then s
      else Lock(s, id, StaffHolds(target, seen))
    case StaffHolds(target, seen) =>
      if !ok then Unlock(s, id, Over, s.row)
      else
        var back := RefundOnMove(seen, target);
        if back.Some? then
          Put(s, id, StaffPaidBack(target, seen, back.value)).(asked := s.asked + {back.value})
        else CommitMove(s, id, target, seen)
    case StaffPaidBack(target, seen, back) =>
      if ok then CommitMove(s, id, target, seen)
      else Unlock(s, id, Over, s.row).(torn := s.torn + {back})
  }

  function WebhookStep(s: State, id: Id, job: Job, ok: bool): State
    requires WebhookJob(job)
  {
    match job
    case Webhook(payment) =>
      if !Own(s, payment) then Put(s, id, Delivered(payment, s.row, false))
      else
        (match Judge(s.row, Some(payment), payment in s.exact)
         case Ignore => Put(s, id, Delivered(payment, s.row, true))
         case GiveBack => Put(s, id, WebhookGivesBack(payment, s.row))
         case TryConfirm => Put(s, id, WebhookRead(payment, s.row)))
    case WebhookRead(payment, seen) =>
      if !Claimable(s.row) then Put(s, id, WebhookLost(payment, seen))
      else if s.lock.Some? then s
      else Lock(s, id, WebhookHolds(payment, seen))
    case WebhookHolds(payment, seen) =>
      if ok then
        Unlock(s, id, Delivered(payment, seen, true), Settled(s.row, Some(payment))).(
          invoices := s.invoices + 1,
          links := if s.links == NoneYet then Live else s.links)
      else Unlock(s, id, Over, s.row)
    case WebhookLost(payment, seen) =>
      Put(s, id, if LoserGivesBack(s.row, Some(payment)) then WebhookGivesBack(payment, seen)
                 else Delivered(payment, seen, true))
    case WebhookGivesBack(payment, seen) =>
      Put(s, id, Delivered(payment, seen, true)).(asked := s.asked + {payment})
  }

  /** A refund is written over PAID only, a dispute over PAID or REFUNDED. */
  predicate Reversible(row: Row, refunded: bool) {
    row.pay == Paid || (!refunded && row.pay == Returned)
  }

  function OtherStep(s: State, id: Id, job: Job, ok: bool): State
    requires !StaffJob(job) && !WebhookJob(job)
  {
    match job
    case Sweep =>
      if !Abandoned(s.row) then Put(s, id, Over)
      else if s.lock.Some? then s
      else Lock(s, id, SweepHolds)
    case SweepHolds =>
      if ok then Unlock(s, id, Over, Expired(s.row)).(given := s.given + 1)
      else Unlock(s, id, Over, s.row)
    case Reversal(capture, refunded) =>
      Put(s, id, if s.row.charge == Some(capture) then ReversalFound(capture, refunded) else Over)
    case ReversalFound(capture, refunded) =>
      if !Reversible(s.row, refunded) then Put(s, id, Over).(links := if ok then Cut(s.links) else s.links)
      else if s.lock.Some? then s
      else Lock(s, id, ReversalHolds(capture, refunded))
    case ReversalHolds(capture, refunded) =>
      if !ok then Unlock(s, id, Over, s.row)
      else if refunded then
        Unlock(s, id, Over, LostToRefund(s.row)).(reversed := s.reversed + {capture}, links := Cut(s.links))
      else Unlock(s, id, Over, LostToDispute(s.row)).(disputed := true, links := Cut(s.links))
    case Checkout(reference) =>
      Put(s, id, if Claimable(s.row) then CheckoutRead(reference) else Over)
    case CheckoutRead(reference) =>
      if s.lock.Some? then s else Put(s, id, Over).(checkouts := s.checkouts.(current := Some(reference)))
    case Delivered(_, _, _) => s
    case Over => s
  }

  function Advance(s: State, id: Id, ok: bool): State
    requires id in s.jobs
  {
    var job := s.jobs[id];
    if StaffJob(job) then StaffStep(s, id, job, ok)
    else if WebhookJob(job) then WebhookStep(s, id, job, ok)
    else OtherStep(s, id, job, ok)
  }

  function Next(s: State, e: Event): State {
    match e
    case Arrive(id, job) =>
      if id in s.jobs || !Arrival(s, job) then s
      else if job.Checkout? then Put(s, id, job).(checkouts := s.checkouts.(issued := s.checkouts.issued + {job.reference}))
      else Put(s, id, job)
    case Step(id, ok) => if id in s.jobs then Advance(s, id, ok) else s
  }

  function Run(s: State, events: seq<Event>): State
    decreases |events|
  {
    if events == [] then s else Run(Next(s, events[0]), events[1..])
  }

  /** An open order no provider has paid yet, with nothing in flight. */
  ghost predicate Fresh(s: State) {
    && !Terminal(s.row.status) && (Gateway(s.row.how) ==> s.row.pay != Paid) && s.row.charge == None
    && s.lock == None && s.jobs == map[] && s.given == 0 && s.asked == {} && s.torn == {} && s.invoices == 0
    && s.reversed == {} && !s.disputed && (Gateway(s.row.how) ==> s.links == NoFiles || s.links == NoneYet)
  }

  // ---- Status, stock and coupon: what every step keeps -----------------------------------------

  ghost predicate LockOk(s: State) {
    && (s.lock.Some? ==> s.lock.value in s.jobs && Holding(s.jobs[s.lock.value]))
    && (forall id :: id in s.jobs && Holding(s.jobs[id]) ==> s.lock == Some(id))
  }

  predicate ChargeOk(row: Row) {
    && (Gateway(row.how) && row.pay == Paid ==> row.charge.Some?)
    && (row.charge.Some? ==> Gateway(row.how))
  }

  /** What staff read still says of the committed row: closed orders stay closed, and only PayPal relabels them. */
  ghost predicate StatusHolds(s: State, seen: Row) {
    && seen.how == s.row.how
    && (Terminal(seen.status) ==> Terminal(s.row.status))
    && (seen.status == Cancelled ==> s.given == 1)
    && (s.row.how != PayPal && Terminal(seen.status) ==> s.row.status == seen.status)
  }

  ghost predicate JobStands(s: State, job: Job) {
    match job
    case StaffRead(target, seen) => StatusHolds(s, seen) && MayMove(seen, target)
    case StaffHolds(target, seen) =>
      && StatusHolds(s, seen) && MayMove(seen, target)
      && if target == seen.status then ReturnsMoney(seen, target) else s.row.status == seen.status
    case StaffPaidBack(target, seen, back) =>
      && StatusHolds(s, seen) && MayMove(seen, target)
      && target != seen.status && s.row.status == seen.status && RefundOnMove(seen, target) == Some(back)
    case Webhook(_) => Gateway(s.row.how)
    case WebhookRead(payment, _) => Gateway(s.row.how) && payment in s.exact
    case WebhookHolds(payment, _) => Gateway(s.row.how) && payment in s.exact && Claimable(s.row)
    case SweepHolds => Abandoned(s.row)
    case Reversal(_, _) => s.row.how == PayPal
    case ReversalFound(_, _) => s.row.how == PayPal
    case ReversalHolds(_, refunded) => s.row.how == PayPal && Reversible(s.row, refunded)
    case Checkout(reference) => s.row.how == PayPal && reference in s.checkouts.issued
    case CheckoutRead(reference) => s.row.how == PayPal && reference in s.checkouts.issued
    case _ => true
  }

  ghost predicate GivenOk(s: State) {
    && s.given <= 1
    && (s.given == 1 ==> Terminal(s.row.status))
    && (s.row.status == Cancelled ==> s.given == 1)
    && (s.row.how != PayPal && s.given == 1 ==> s.row.status == Cancelled)
  }

  ghost predicate StatusInv(s: State) {
    && LockOk(s) && ChargeOk(s.row) && GivenOk(s) && (s.disputed ==> s.row.how == PayPal)
    && forall id :: id in s.jobs ==> JobStands(s, s.jobs[id])
  }

  /** What one step leaves to all the other handlers. */
  ghost predicate Moves(s: State, t: State) {
    && t.exact == s.exact && t.checkouts.of == s.checkouts.of && s.checkouts.issued <= t.checkouts.issued
    && s.asked <= t.asked && s.reversed <= t.reversed && (s.disputed ==> t.disputed)
    && t.row.how == s.row.how
    && (Terminal(s.row.status) ==> Terminal(t.row.status))
    && (s.row.how != PayPal && Terminal(s.row.status) ==> t.row.status == s.row.status)
    && (t.row.charge == s.row.charge
        || (!Terminal(s.row.status) && t.row.charge.Some? && t.row.charge.value in t.exact))
    && s.given <= t.given
  }

  /** A step replaces its own handler, and only that handler can take or free the row. */
  ghost predicate MovesOne(s: State, t: State, id: Id) {
    && id in s.jobs && id in t.jobs && t.jobs == s.jobs[id := t.jobs[id]]
    && (t.row != s.row ==> Holding(s.jobs[id]))
    && (t.lock == s.lock || t.lock == Some(id) || Holding(s.jobs[id]))
    && (t.lock == s.lock ==> (Holding(t.jobs[id]) <==> Holding(s.jobs[id])))
    && (t.lock != s.lock && !Holding(s.jobs[id]) ==> s.lock == None && Holding(t.jobs[id]))
    && (t.lock != s.lock && Holding(s.jobs[id]) ==> t.lock == None && !Holding(t.jobs[id]))
  }

  /** All that is proved of one handler's step, family by family. */
  ghost predicate GoodStep(s: State, t: State, id: Id) {
    && MovesOne(s, t, id) && Moves(s, t) && (t.given != s.given ==> t.row.status == Cancelled)
    && ChargeOk(t.row) && GivenOk(t) && JobStands(t, t.jobs[id]) && (t.disputed && !s.disputed ==> t.row.how == PayPal)
  }

  ghost predicate Ready(s: State, id: Id) {
    && id in s.jobs && ChargeOk(s.row) && GivenOk(s) && JobStands(s, s.jobs[id])
    && (Holding(s.jobs[id]) ==> s.lock == Some(id))
  }

  lemma {:induction false} ClaimedGood(s: State, id: Id, ok: bool)
    requires Ready(s, id) && StaffJob(s.jobs[id]) && Holding(s.jobs[id])
    ensures GoodStep(s, StaffStep(s, id, s.jobs[id], ok), id)
  {
  }

  lemma {:induction false} StaffGood(s: State, id: Id, ok: bool)
    requires Ready(s, id) && StaffJob(s.jobs[id])
    ensures GoodStep(s, StaffStep(s, id, s.jobs[id], ok), id)
  {
    if Holding(s.jobs[id]) {
      ClaimedGood(s, id, ok);
    }
  }

  lemma {:induction false} WebhookGood(s: State, id: Id, ok: bool)
    requires Ready(s, id) && WebhookJob(s.jobs[id])
    ensures GoodStep(s, WebhookStep(s, id, s.jobs[id], ok), id)
  {
  }

  lemma {:induction false} ReversedGood(s: State, id: Id, ok: bool)
    requires Ready(s, id) && s.jobs[id].ReversalHolds?
    ensures GoodStep(s, OtherStep(s, id, s.jobs[id], ok), id)
  {
  }

  lemma {:induction false} ReversalGood(s: State, id: Id, ok: bool)
    requires Ready(s, id) && ReversalJob(s.jobs[id])
    ensures GoodStep(s, OtherStep(s, id, s.jobs[id], ok), id)
  {
    if s.jobs[id].ReversalHolds? {
      ReversedGood(s, id, ok);
    }
  }

  lemma {:induction false} OtherGood(s: State, id: Id, ok: bool)
    requires Ready(s, id) && !StaffJob(s.jobs[id]) && !WebhookJob(s.jobs[id])
    ensures GoodStep(s, OtherStep(s, id, s.jobs[id], ok), id)
  {
    if ReversalJob(s.jobs[id]) {
      ReversalGood(s, id, ok);
    }
  }

  lemma {:induction false} AdvanceGood(s: State, id: Id, ok: bool)
    requires StatusInv(s) && id in s.jobs
    ensures GoodStep(s, Advance(s, id, ok), id)
  {
    assert JobStands(s, s.jobs[id]);
    if StaffJob(s.jobs[id]) {
      StaffGood(s, id, ok);
    } else if WebhookJob(s.jobs[id]) {
      WebhookGood(s, id, ok);
    } else {
      OtherGood(s, id, ok);
    }
  }

  lemma {:induction false} LockMoves(s: State, t: State, id: Id)
    requires LockOk(s) && MovesOne(s, t, id)
    ensures LockOk(t)
  {
  }

  lemma {:induction false} OthersStand(s: State, t: State, job: Job)
    requires Moves(s, t) && GivenOk(t) && JobStands(s, job) && (!Holding(job) || (t.row == s.row && t.given == s.given))
    ensures JobStands(t, job)
  {
  }

  lemma {:induction false} GoodKeepsStatus(s: State, t: State, id: Id)
    requires StatusInv(s) && GoodStep(s, t, id) && t.jobs == s.jobs[id := t.jobs[id]]
    ensures StatusInv(t)
  {
    LockMoves(s, t, id);
    forall other | other in t.jobs && other != id ensures JobStands(t, t.jobs[other]) {
      assert JobStands(s, s.jobs[other]);
      if Holding(s.jobs[other]) {
        assert !Holding(s.jobs[id]);
      }
      OthersStand(s, t, s.jobs[other]);
    }
  }

  lemma {:induction false} StepStatusInv(s: State, e: Event)
    requires StatusInv(s)
    ensures StatusInv(Next(s, e)) && Moves(s, Next(s, e))
    ensures Next(s, e).given != s.given ==> Next(s, e).row.status == Cancelled
  {
    var t := Next(s, e);
    if e.Step? && e.id in s.jobs {
      AdvanceGood(s, e.id, e.ok);
      GoodKeepsStatus(s, t, e.id);
    } else {
      forall other | other in t.jobs ensures JobStands(t, t.jobs[other]) {
        if other in s.jobs {
          OthersStand(s, t, s.jobs[other]);
        }
      }
    }
  }

  lemma {:induction false} RunStatusInv(s: State, events: seq<Event>)
    requires StatusInv(s)
    ensures StatusInv(Run(s, events)) && Moves(s, Run(s, events))
    decreases |events|
  {
    if events != [] {
      StepStatusInv(s, events[0]);
      RunStatusInv(Next(s, events[0]), events[1..]);
    }
  }

  /** The order was CANCELLED at some moment of the run. */
  ghost predicate EverCancelled(s: State, events: seq<Event>)
    decreases |events|
  {
    s.row.status == Cancelled || (events != [] && EverCancelled(Next(s, events[0]), events[1..]))
  }

  lemma {:induction false} GivenIffCancelled(s: State, events: seq<Event>)
    requires StatusInv(s)
    ensures Run(s, events).given == 1 <==> s.given == 1 || EverCancelled(s, events)
    decreases |events|
  {
    RunStatusInv(s, events);
    if events != [] {
      StepStatusInv(s, events[0]);
      GivenIffCancelled(Next(s, events[0]), events[1..]);
    }
  }

  /**
   * Whatever the payment method: stock and the coupon use are given back exactly once if the order
   * was ever cancelled, and never otherwise. An order PayPal does not relabel is then still CANCELLED.
   */
  lemma {:induction false} ReleasedExactlyOnce(s: State, events: seq<Event>)
    requires Fresh(s)
    ensures var t := Run(s, events);
            && t.given == (if EverCancelled(s, events) then 1 else 0)
            && (t.row.how != PayPal ==> (EverCancelled(s, events) <==> t.row.status == Cancelled))
  {
    RunStatusInv(s, events);
    GivenIffCancelled(s, events);
  }

  // ---- Money: what every step keeps until a dispute is written -----------------------------------

  ghost predicate RowOk(row: Row) {
    ChargeOk(row) && (row.charge.Some? ==> row.pay == Paid || Terminal(row.status))
  }

  /** What was read earlier still binds the committed row: recorded charges and closed orders stay. */
  ghost predicate StillHolds(seen: Row, row: Row) {
    && RowOk(seen)
    && row.how == seen.how
    && (seen.charge.Some? ==> row.charge == seen.charge)
    && (!Claimable(seen) ==> !Claimable(row) && row.charge == seen.charge)
  }

  /** A PayPal capture that lost the race to a cancellation is neither recorded nor returned. */
  predicate LostToCancel(row: Row) {
    row.how == PayPal && row.charge == None && !Claimable(row)
  }

  ghost predicate JobOk(s: State, job: Job) {
    match job
    case StaffRead(target, seen) => StillHolds(seen, s.row)
    case StaffHolds(target, seen) => StillHolds(seen, s.row)
    case StaffPaidBack(target, seen, back) => StillHolds(seen, s.row)
    case WebhookLost(payment, seen) => !Claimable(s.row)
    case WebhookGivesBack(payment, seen) =>
      && (payment in s.exact ==> !Claimable(s.row))
      && (s.row.charge == Some(payment) ==> Terminal(s.row.status))
    case Delivered(payment, seen, mine) =>
      || s.row.charge == Some(payment) || payment in s.asked
      || !mine || UnpaidRefunded(seen) || LostToCancel(s.row)
    case ReversalFound(capture, _) => s.row.charge == Some(capture)
    case ReversalHolds(capture, _) => s.row.charge == Some(capture)
    case _ => true
  }

  /** The row is held by a staff transaction whose refund of `payment` the provider has accepted. */
  ghost predicate PayingBack(s: State, payment: Id) {
    && s.lock.Some? && s.lock.value in s.jobs
    && s.jobs[s.lock.value].StaffPaidBack? && s.jobs[s.lock.value].back == payment
  }

  /** A payment is refunded while it is the recorded charge only once the order is terminal. */
  ghost predicate RefundOk(s: State, payment: Id) {
    payment in s.asked && s.row.charge == Some(payment) ==>
      || Terminal(s.row.status)
      || payment in s.torn
      || PayingBack(s, payment)
  }

  ghost predicate ChargeExact(s: State) {
    s.row.charge.Some? ==> s.row.charge.value in s.exact
  }

  ghost predicate LedgerOk(s: State) {
    && RowOk(s.row) && ChargeExact(s)
    && s.invoices == (if s.row.charge.Some? then 1 else 0)
    && (forall payment :: payment in s.asked && payment in s.exact ==> !Claimable(s.row))
    && (forall payment :: payment in s.asked ==> RefundOk(s, payment))
  }

  ghost predicate MoneyInv(s: State) {
    LedgerOk(s) && forall id :: id in s.jobs ==> JobOk(s, s.jobs[id])
  }

  ghost predicate Inv(s: State) {
    StatusInv(s) && (s.disputed || MoneyInv(s))
  }

  /** One step's effect on the money side, as every other handler may rely on it. */
  ghost predicate Keeps(s: State, t: State) {
    Moves(s, t) && StillHolds(s.row, t.row)
  }

  lemma {:induction false} OthersOk(s: State, t: State, job: Job)
    requires JobOk(s, job) && Keeps(s, t) && ChargeExact(t) && (!Holding(job) || t.row == s.row)
    ensures JobOk(t, job)
  {
  }

  ghost predicate GoodMoney(s: State, t: State, id: Id) {
    id in t.jobs && (t.disputed || (Keeps(s, t) && JobOk(t, t.jobs[id]) && RowOk(t.row) && ChargeExact(t)
                                    && t.invoices == (if t.row.charge.Some? then 1 else 0)))
  }

  ghost predicate MoneyReady(s: State, id: Id) {
    && Ready(s, id) && RowOk(s.row) && ChargeExact(s) && !s.disputed
    && s.invoices == (if s.row.charge.Some? then 1 else 0) && JobOk(s, s.jobs[id])
  }

  lemma {:induction false} StaffMoney(s: State, id: Id, ok: bool)
    requires MoneyReady(s, id) && StaffJob(s.jobs[id])
    ensures GoodMoney(s, StaffStep(s, id, s.jobs[id], ok), id)
  {
    StaffGood(s, id, ok);
  }

  lemma {:induction false} WebhookMoney(s: State, id: Id, ok: bool)
    requires MoneyReady(s, id) && WebhookJob(s.jobs[id])
    ensures GoodMoney(s, WebhookStep(s, id, s.jobs[id], ok), id)
  {
    WebhookGood(s, id, ok);
  }

  lemma {:induction false} OtherMoney(s: State, id: Id, ok: bool)
    requires MoneyReady(s, id) && !StaffJob(s.jobs[id]) && !WebhookJob(s.jobs[id])
    ensures GoodMoney(s, OtherStep(s, id, s.jobs[id], ok), id)
  {
    OtherGood(s, id, ok);
  }

  lemma {:induction false} AdvanceMoney(s: State, id: Id, ok: bool)
    requires StatusInv(s) && MoneyInv(s) && !s.disputed && id in s.jobs
    ensures GoodMoney(s, Advance(s, id, ok), id)
  {
    assert JobStands(s, s.jobs[id]) && JobOk(s, s.jobs[id]);
    if StaffJob(s.jobs[id]) {
      StaffMoney(s, id, ok);
    } else if WebhookJob(s.jobs[id]) {
      WebhookMoney(s, id, ok);
    } else {
      OtherMoney(s, id, ok);
    }
  }

  /** Who may ask for a payment's refund, and who may drop one that is still under way. */
  ghost predicate Asking(s: State, t: State, id: Id, payment: Id) {
    && id in s.jobs && id in t.jobs && s.torn <= t.torn
    && (payment in t.asked && payment !in s.asked ==>
          && t.row == s.row
          && (|| (s.jobs[id].WebhookGivesBack? && s.jobs[id].payment == payment)
              || (t.jobs[id].StaffPaidBack? && t.jobs[id].back == payment && t.lock == Some(id))))
    && (s.jobs[id].StaffPaidBack? ==> s.jobs[id].back in t.torn || Terminal(t.row.status))
  }

  lemma {:induction false} StaffAsks(s: State, id: Id, ok: bool, payment: Id)
    requires Ready(s, id) && StaffJob(s.jobs[id])
    ensures Asking(s, StaffStep(s, id, s.jobs[id], ok), id, payment)
  {
  }

  lemma {:induction false} OthersAsk(s: State, id: Id, ok: bool, payment: Id)
    requires Ready(s, id) && !StaffJob(s.jobs[id])
    ensures Asking(s, Advance(s, id, ok), id, payment)
  {
  }

  lemma {:induction false} AsksOnly(s: State, id: Id, ok: bool, payment: Id)
    requires Ready(s, id)
    ensures Asking(s, Advance(s, id, ok), id, payment)
  {
    if StaffJob(s.jobs[id]) {
      StaffAsks(s, id, ok, payment);
    } else {
      OthersAsk(s, id, ok, payment);
    }
  }

  lemma {:induction false} StepRefunds(s: State, id: Id, ok: bool, payment: Id)
    requires StatusInv(s) && MoneyInv(s) && !s.disputed && id in s.jobs && !Advance(s, id, ok).disputed
    requires payment in Advance(s, id, ok).asked
    ensures var t := Advance(s, id, ok); RefundOk(t, payment) && (payment in t.exact ==> !Claimable(t.row))
  {
    var t := Advance(s, id, ok);
    assert JobStands(s, s.jobs[id]) && JobOk(s, s.jobs[id]);
    AdvanceGood(s, id, ok);
    AdvanceMoney(s, id, ok);
    AsksOnly(s, id, ok, payment);
    if payment in s.asked {
      assert RefundOk(s, payment);
    }
  }

  lemma {:induction false} AdvanceInv(s: State, id: Id, ok: bool)
    requires StatusInv(s) && MoneyInv(s) && !s.disputed && id in s.jobs && !Advance(s, id, ok).disputed
    ensures MoneyInv(Advance(s, id, ok)) && Keeps(s, Advance(s, id, ok))
  {
    var t := Advance(s, id, ok);
    AdvanceGood(s, id, ok);
    AdvanceMoney(s, id, ok);
    forall payment | payment in t.asked ensures RefundOk(t, payment) && (payment in t.exact ==> !Claimable(t.row)) {
      StepRefunds(s, id, ok, payment);
    }
    forall other | other in t.jobs && other != id ensures JobOk(t, t.jobs[other]) {
      assert JobOk(s, s.jobs[other]);
      OthersOk(s, t, s.jobs[other]);
    }
  }

  lemma {:induction false} ArrivalInv(s: State, id: Id, job: Job)
    requires StatusInv(s) && MoneyInv(s) && !s.disputed && id !in s.jobs && Arrival(s, job)
    ensures var t := Next(s, Arrive(id, job)); MoneyInv(t) && Keeps(s, t)
  {
    var t := Next(s, Arrive(id, job));
    forall other | other in t.jobs && other != id ensures JobOk(t, t.jobs[other]) {
      assert JobOk(s, s.jobs[other]);
      OthersOk(s, t, s.jobs[other]);
    }
    forall payment | payment in t.asked ensures RefundOk(t, payment) {
      assert RefundOk(s, payment);
    }
  }

  lemma {:induction false} StepInv(s: State, e: Event)
    requires Inv(s)
    ensures Inv(Next(s, e)) && (Next(s, e).disputed || Keeps(s, Next(s, e)))
  {
    StepStatusInv(s, e);
    if !Next(s, e).disputed {
      if e.Step? && e.id in s.jobs {
        AdvanceInv(s, e.id, e.ok);
      } else if e.Arrive? && e.id !in s.jobs && Arrival(s, e.job) {
        ArrivalInv(s, e.id, e.job);
      } else {
        assert Next(s, e) == s;
      }
    }
  }

  lemma {:induction false} RunInv(s: State, events: seq<Event>)
    requires Inv(s)
    ensures var t := Run(s, events); Inv(t) && Moves(s, t) && (t.disputed || (MoneyInv(s) && Keeps(s, t)))
    decreases |events|
  {
    RunStatusInv(s, events);
    if events != [] {
      var mid := Next(s, events[0]);
      StepStatusInv(s, events[0]);
      StepInv(s, events[0]);
      RunInv(mid, events[1..]);
    } else if !s.disputed {
      assert StillHolds(s.row, s.row);
    }
  }

  // ---- Results over every run ----------------------------------------------------------------

  /**
   * Every finished delivery of a payment left it recorded or asked for its refund, unless it read an
   * unpaid order labelled REFUNDED, or a PayPal capture was for a checkout the order has replaced or
   * lost the race to a cancellation; and a recorded payment is refunded only on a terminal order, or
   * by a staff transaction still open or one that failed to commit after the provider accepted.
   */
  lemma {:induction false} RecordOrRefund(s: State, events: seq<Event>, id: Id, payment: Id)
    requires Fresh(s) && !Run(s, events).disputed
    ensures var t := Run(s, events);
            && (id in t.jobs && t.jobs[id].Delivered? && t.jobs[id].payment == payment ==>
                  || t.row.charge == Some(payment)
                  || payment in t.asked
                  || !t.jobs[id].mine
                  || UnpaidRefunded(t.jobs[id].seen)
                  || LostToCancel(t.row))
            && (payment in t.asked && t.row.charge == Some(payment) ==>
                  || Terminal(t.row.status)
                  || payment in t.torn
                  || PayingBack(t, payment))
  {
    RunInv(s, events);
    var t := Run(s, events);
    if id in t.jobs {
      assert JobOk(t, t.jobs[id]);
    }
    if payment in t.asked {
      assert RefundOk(t, payment);
    }
  }

  /**
   * Once a payment id is recorded no continuation replaces it and the order is invoiced once, unless
   * PayPal disputes it meanwhile; a closed order stays closed, and under its own label unless it is
   * PayPal's.
   */
  lemma {:induction false} ChargeIsWriteOnce(s: State, events: seq<Event>, more: seq<Event>)
    requires Fresh(s)
    ensures var t, u := Run(s, events), Run(Run(s, events), more);
            && (t.row.charge.Some? && !u.disputed ==> u.row.charge == t.row.charge)
            && (!u.disputed ==> u.invoices == (if u.row.charge.Some? then 1 else 0))
            && (Terminal(t.row.status) ==> Terminal(u.row.status))
            && (Terminal(t.row.status) && t.row.how != PayPal ==> u.row.status == t.row.status)
  {
    RunInv(s, events);
    RunInv(Run(s, events), more);
  }

  // ---- The ways a payment is kept ----------------------------------------------------------------

  /**
   * At its read a delivery drops an unrecorded payment exactly when it is not for the order's current
   * PayPal order, or the order is REFUNDED and unpaid.
   */
  lemma {:induction false} ReadDropsPaymentIff(s: State, id: Id, ok: bool)
    requires Inv(s) && !s.disputed && id in s.jobs && s.jobs[id].Webhook?
    requires s.jobs[id].payment !in s.asked && s.row.charge != Some(s.jobs[id].payment)
    ensures var t := Advance(s, id, ok);
            && t.row == s.row && t.asked == s.asked
            && (t.jobs[id].Delivered? <==> !Own(s, s.jobs[id].payment) || UnpaidRefunded(s.row))
            && (t.jobs[id].Delivered? ==> t.jobs[id].mine == Own(s, s.jobs[id].payment))
  {
    assert JobStands(s, s.jobs[id]);
  }

  /** And nowhere later is a payment found not to be the order's own. */
  lemma {:induction false} ForeignOnlyAtRead(s: State, id: Id, ok: bool)
    requires id in s.jobs && !s.jobs[id].Delivered? && Advance(s, id, ok).jobs[id].Delivered?
    ensures !Advance(s, id, ok).jobs[id].mine ==> s.jobs[id].Webhook? && !Own(s, s.jobs[id].payment)
  {
  }

  /** After losing the claim it drops one exactly when the order is PayPal's and the winner recorded no capture. */
  lemma {:induction false} RaceDropsPaymentIff(s: State, id: Id, ok: bool)
    requires id in s.jobs && s.jobs[id].WebhookLost? && s.row.charge != Some(s.jobs[id].payment)
    ensures var t := Advance(s, id, ok);
            && t.row == s.row && t.asked == s.asked
            && (t.jobs[id].Delivered? <==> s.row.how == PayPal && s.row.charge == None)
  {
  }

  // ---- When a closed order still serves its files -------------------------------------------------

  /** This step closes the order by a staff claim that had read it unpaid, while it is paid and its links are live. */
  predicate ClosesStale(s: State, e: Event) {
    && e.Step? && e.ok && e.id in s.jobs && s.jobs[e.id].StaffHolds?
    && Terminal(s.jobs[e.id].target) && s.jobs[e.id].seen.pay != Paid && Downloadable(s)
  }

  ghost predicate ClosedStale(s: State, events: seq<Event>)
    decreases |events|
  {
    events != [] && (ClosesStale(s, events[0]) || ClosedStale(Next(s, events[0]), events[1..]))
  }

  /** A closing step leaves the files served exactly when it is stale, and none serves a closed order's files again. */
  ghost predicate ServesRight(s: State, t: State, e: Event) {
    && (!Terminal(s.row.status) && Terminal(t.row.status) ==> (Downloadable(t) <==> ClosesStale(s, e)))
    && (Terminal(s.row.status) && Downloadable(t) ==> Downloadable(s))
  }

  lemma {:induction false} StaffServes(s: State, id: Id, ok: bool)
    requires Ready(s, id) && StaffJob(s.jobs[id])
    ensures ServesRight(s, StaffStep(s, id, s.jobs[id], ok), Step(id, ok))
  {
  }

  lemma {:induction false} WebhookServes(s: State, id: Id, ok: bool)
    requires Ready(s, id) && WebhookJob(s.jobs[id])
    ensures ServesRight(s, WebhookStep(s, id, s.jobs[id], ok), Step(id, ok))
  {
  }

  lemma {:induction false} OtherServes(s: State, id: Id, ok: bool)
    requires Ready(s, id) && !StaffJob(s.jobs[id]) && !WebhookJob(s.jobs[id])
    ensures ServesRight(s, OtherStep(s, id, s.jobs[id], ok), Step(id, ok))
  {
  }

  /**
   * The step that closes an order leaves its files served exactly when it is the claim of a status
   * change that had read it unpaid and finds it paid with live links; and once a closed order's files
   * are not served, no step serves them again.
   */
  lemma {:induction false} ClosingServesIffStale(s: State, e: Event)
    requires StatusInv(s)
    ensures var t := Next(s, e);
            && (!Terminal(s.row.status) && Terminal(t.row.status) ==> (Downloadable(t) <==> ClosesStale(s, e)))
            && (Terminal(s.row.status) && Downloadable(t) ==> Downloadable(s))
  {
    if e.Step? && e.id in s.jobs {
      assert JobStands(s, s.jobs[e.id]);
      if StaffJob(s.jobs[e.id]) {
        StaffServes(s, e.id, e.ok);
      } else if WebhookJob(s.jobs[e.id]) {
        WebhookServes(s, e.id, e.ok);
      } else {
        OtherServes(s, e.id, e.ok);
      }
    }
  }

  /** So a closed order that serves its files was closed by such a claim. */
  lemma {:induction false} ServedClosedWasStale(s: State, events: seq<Event>)
    requires StatusInv(s) && (Terminal(s.row.status) ==> !Downloadable(s))
    ensures Terminal(Run(s, events).row.status) && Downloadable(Run(s, events)) ==> ClosedStale(s, events)
    decreases |events|
  {
    if events != [] && !ClosesStale(s, events[0]) {
      ClosingServesIffStale(s, events[0]);
      StepStatusInv(s, events[0]);
      ServedClosedWasStale(Next(s, events[0]), events[1..]);
    }
  }

  // ---- When claims are made on a current read ---------------------------------------------------

  /** If this step is a staff claim, it finds the row exactly as it was read. */
  ghost predicate ClaimFresh(s: State, e: Event) {
    e.Step? && e.id in s.jobs && s.jobs[e.id].StaffRead? && s.lock == None ==> s.jobs[e.id].seen == s.row
  }

  ghost predicate ClaimsFresh(s: State, events: seq<Event>)
    decreases |events|
  {
    events != [] ==> ClaimFresh(s, events[0]) && ClaimsFresh(Next(s, events[0]), events[1..])
  }

  ghost predicate Decided(s: State, job: Job) {
    && (job.StaffHolds? ==> job.seen == s.row)
    && (job.StaffPaidBack? ==> job.seen == s.row && job.back in s.asked)
  }

  /** The closed online order no longer keeps its payment: it is not PAID, and its charge went or goes back. */
  predicate GaveMoneyBack(s: State) {
    Gateway(s.row.how) && Terminal(s.row.status) ==>
      && s.row.pay != Paid
      && (s.row.charge.Some? ==> s.row.charge.value in s.asked || s.row.charge.value in s.reversed)
  }

  /** And a claim in progress decided on the current row. */
  ghost predicate Returning(s: State) {
    GaveMoneyBack(s) && forall id :: id in s.jobs ==> Decided(s, s.jobs[id])
  }

  ghost predicate Deciding(s: State, id: Id) {
    && MoneyReady(s, id) && GaveMoneyBack(s) && Decided(s, s.jobs[id])
    && (s.jobs[id].StaffRead? && s.lock == None ==> s.jobs[id].seen == s.row)
  }

  lemma {:induction false} StaffDecided(s: State, id: Id, ok: bool)
    requires Deciding(s, id) && StaffJob(s.jobs[id])
    ensures var t := StaffStep(s, id, s.jobs[id], ok); id in t.jobs && Decided(t, t.jobs[id]) && GaveMoneyBack(t)
  {
  }

  lemma {:induction false} WebhookDecided(s: State, id: Id, ok: bool)
    requires Deciding(s, id) && WebhookJob(s.jobs[id])
    ensures var t := WebhookStep(s, id, s.jobs[id], ok); id in t.jobs && Decided(t, t.jobs[id]) && GaveMoneyBack(t)
  {
  }

  lemma {:induction false} OtherDecided(s: State, id: Id, ok: bool)
    requires Deciding(s, id) && !StaffJob(s.jobs[id]) && !WebhookJob(s.jobs[id])
    requires !OtherStep(s, id, s.jobs[id], ok).disputed
    ensures var t := OtherStep(s, id, s.jobs[id], ok); id in t.jobs && Decided(t, t.jobs[id]) && GaveMoneyBack(t)
  {
  }

  lemma {:induction false} StepDecided(s: State, id: Id, ok: bool)
    requires Deciding(s, id) && !Advance(s, id, ok).disputed
    ensures var t := Advance(s, id, ok); id in t.jobs && Decided(t, t.jobs[id]) && GaveMoneyBack(t)
  {
    if StaffJob(s.jobs[id]) {
      StaffDecided(s, id, ok);
    } else if WebhookJob(s.jobs[id]) {
      WebhookDecided(s, id, ok);
    } else {
      OtherDecided(s, id, ok);
    }
  }

  lemma {:induction false} StepReturning(s: State, e: Event)
    requires Inv(s) && Returning(s) && ClaimFresh(s, e) && !Next(s, e).disputed
    ensures Returning(Next(s, e))
  {
    var t := Next(s, e);
    StepStatusInv(s, e);
    if e.Step? && e.id in s.jobs {
      assert JobStands(s, s.jobs[e.id]) && JobOk(s, s.jobs[e.id]) && Decided(s, s.jobs[e.id]);
      StepDecided(s, e.id, e.ok);
      AdvanceGood(s, e.id, e.ok);
    }
    forall id | id in t.jobs ensures Decided(t, t.jobs[id]) {
      if id in s.jobs {
        assert Decided(s, s.jobs[id]);
      }
    }
  }

  lemma {:induction false} RunReturning(s: State, events: seq<Event>)
    requires Inv(s) && Returning(s) && ClaimsFresh(s, events) && !Run(s, events).disputed
    ensures Returning(Run(s, events))
    decreases |events|
  {
    if events != [] {
      StepInv(s, events[0]);
      RunInv(Next(s, events[0]), events[1..]);
      StepReturning(s, events[0]);
      RunReturning(Next(s, events[0]), events[1..]);
    }
  }

  lemma {:induction false} FreshNeverClosesStale(s: State, events: seq<Event>)
    requires Inv(s) && Returning(s) && ClaimsFresh(s, events) && !Run(s, events).disputed
    ensures !ClosedStale(s, events)
    decreases |events|
  {
    if events != [] {
      StepInv(s, events[0]);
      RunInv(Next(s, events[0]), events[1..]);
      StepReturning(s, events[0]);
      FreshNeverClosesStale(Next(s, events[0]), events[1..]);
    }
  }

  /**
   * When every staff claim is made on a current read, a cancelled or refunded online order is not
   * PAID, its payment was asked back or taken back by PayPal, and no closed order serves its files.
   */
  lemma {:induction false} FreshClaimsReturnMoney(s: State, events: seq<Event>)
    requires Fresh(s) && ClaimsFresh(s, events) && !Run(s, events).disputed
    ensures var t := Run(s, events);
            Gateway(t.row.how) && (t.row.status == Cancelled || t.row.status == Refunded) ==>
              && t.row.pay != Paid
              && (t.row.charge.Some? ==> t.row.charge.value in t.asked || t.row.charge.value in t.reversed)
    ensures var t := Run(s, events);
            t.row.status == Cancelled || t.row.status == Refunded ==> t.links != Live || t.row.pay != Paid
  {
    RunReturning(s, events);
    FreshNeverClosesStale(s, events);
    ServedClosedWasStale(s, events);
  }

  // ---- Where a stale claim strands money ---------------------------------------------------------

  /** What the staff request holding the row does next, when nothing fails. */
  function Completed(s: State, id: Id): State
    requires id in s.jobs && s.jobs[id].StaffHolds?
  {
    Next(Next(s, Step(id, true)), Step(id, true))
  }

  /**
   * The claim of a status change checks the status only. A cancellation or refund of a charged order
   * asks for its payment back exactly when the earlier read had already seen it paid, and under
   * another label.
   */
  lemma {:induction false} MoneyReturnedIffReadSawPaid(s: State, id: Id)
    requires Inv(s) && !s.disputed && id in s.jobs && s.jobs[id].StaffHolds? && Terminal(s.jobs[id].target)
    requires s.row.pay == Paid && s.row.charge.Some? && s.row.charge.value !in s.asked
    ensures var job, t := s.jobs[id], Completed(s, id);
            && t.row.status == job.target && t.row.charge == s.row.charge
            && (s.row.charge.value in t.asked <==> job.seen.pay == Paid && job.target != job.seen.status)
  {
    assert JobStands(s, s.jobs[id]) && JobOk(s, s.jobs[id]);
  }

  /**
   * Staff can so write that a charge was returned when nobody was asked for it: exactly by re-marking
   * an order with the label it was read under, closed and PAID.
   */
  lemma {:induction false} ReturnedUnaskedIff(s: State, id: Id)
    requires Inv(s) && !s.disputed && id in s.jobs && s.jobs[id].StaffHolds?
    requires s.row.pay != Returned && s.row.charge.Some? && s.row.charge.value !in s.asked
    ensures var job, t := s.jobs[id], Completed(s, id);
            && (t.row.pay == Returned && s.row.charge.value !in t.asked <==> job.target == job.seen.status)
            && (job.target == job.seen.status ==> Terminal(job.target) && job.seen.pay == Paid)
  {
    assert JobStands(s, s.jobs[id]) && JobOk(s, s.jobs[id]);
  }

  // ---- When a closed order changes its label ---------------------------------------------------

  /** Staff re-marking a closed order they read under another label: it is written again, as is a returned payment. */
  predicate Remarking(s: State, job: Job) {
    && (job.StaffRead? || job.StaffHolds?)
    && job.target == job.seen.status != s.row.status && ReturnsMoney(job.seen, job.target)
  }

  /** A cancelled PayPal order still PAID, or a re-marking under way. */
  ghost predicate Unsettled(s: State) {
    || (s.row.how == PayPal && s.row.status == Cancelled && s.row.pay == Paid)
    || exists id :: id in s.jobs && Remarking(s, s.jobs[id])
  }

  lemma {:induction false} SettledStep(s: State, e: Event)
    requires StatusInv(s) && Terminal(s.row.status) && !Unsettled(s)
    ensures var t := Next(s, e); t.row.status == s.row.status && !Unsettled(t)
  {
    var t := Next(s, e);
    if e.Step? && e.id in s.jobs {
      assert JobStands(s, s.jobs[e.id]) && !Remarking(s, s.jobs[e.id]);
      SettledAdvance(s, e.id, e.ok);
      AdvanceGood(s, e.id, e.ok);
    }
    forall id | id in t.jobs ensures !Remarking(t, t.jobs[id]) {
      if id in s.jobs {
        assert !Remarking(s, s.jobs[id]);
      }
    }
  }

  ghost predicate Settling(s: State, id: Id) {
    && Ready(s, id) && Terminal(s.row.status) && !Remarking(s, s.jobs[id])
    && !(s.row.how == PayPal && s.row.status == Cancelled && s.row.pay == Paid)
  }

  ghost predicate StaysSettled(s: State, t: State, id: Id) {
    && id in t.jobs && t.row.status == s.row.status && (t.row.pay == Paid ==> s.row.pay == Paid)
    && !Remarking(t, t.jobs[id])
  }

  lemma {:induction false} StaffSettled(s: State, id: Id, ok: bool)
    requires Settling(s, id) && StaffJob(s.jobs[id])
    ensures StaysSettled(s, StaffStep(s, id, s.jobs[id], ok), id)
  {
  }

  lemma {:induction false} WebhookSettled(s: State, id: Id, ok: bool)
    requires Settling(s, id) && WebhookJob(s.jobs[id])
    ensures StaysSettled(s, WebhookStep(s, id, s.jobs[id], ok), id)
  {
  }

  lemma {:induction false} OtherSettled(s: State, id: Id, ok: bool)
    requires Settling(s, id) && !StaffJob(s.jobs[id]) && !WebhookJob(s.jobs[id])
    ensures StaysSettled(s, OtherStep(s, id, s.jobs[id], ok), id)
  {
  }

  lemma {:induction false} SettledAdvance(s: State, id: Id, ok: bool)
    requires Settling(s, id)
    ensures StaysSettled(s, Advance(s, id, ok), id)
  {
    if StaffJob(s.jobs[id]) {
      StaffSettled(s, id, ok);
    } else if WebhookJob(s.jobs[id]) {
      WebhookSettled(s, id, ok);
    } else {
      OtherSettled(s, id, ok);
    }
  }

  lemma {:induction false} SettledStays(s: State, events: seq<Event>)
    requires StatusInv(s) && Terminal(s.row.status) && !Unsettled(s)
    ensures Run(s, events).row.status == s.row.status
    decreases |events|
  {
    if events != [] {
      StepStatusInv(s, events[0]);
      SettledStep(s, events[0]);
      SettledStays(Next(s, events[0]), events[1..]);
    }
  }

  lemma {:induction false} RunTwo(s: State, first: Event, second: Event, rest: seq<Event>)
    ensures Run(s, [first, second] + rest) == Run(Next(Next(s, first), second), rest)
  {
    assert ([first, second] + rest)[1..] == [second] + rest;
    assert ([second] + rest)[1..] == rest;
  }

  lemma {:induction false} RunOne(s: State, first: Event, rest: seq<Event>)
    ensures Run(s, [first] + rest) == Run(Next(s, first), rest)
  {
    assert ([first] + rest)[1..] == rest;
  }

  lemma {:induction false} Unused(keys: set<Id>) returns (id: Id)
    ensures forall k :: k in keys ==> k < id
  {
    if keys == {} {
      id := 0;
    } else {
      var k :| k in keys;
      var above := Unused(keys - {k});
      assert forall j :: j in keys ==> j == k || j in keys - {k};
      id := if above <= k then k + 1 else above;
    }
  }

  /** A reversal of a captured, PAID order with nothing holding its row. */
  function ReversalOf(id: Id, capture: Id): seq<Event> {
    [Arrive(id, Reversal(capture, true)), Step(id, true)] + [Step(id, true), Step(id, true)]
  }

  lemma {:induction false} ReversalRelabels(s: State, id: Id, capture: Id)
    requires s.lock == None && id !in s.jobs && s.row.how == PayPal && s.row.pay == Paid && s.row.charge == Some(capture)
    ensures var t := Run(s, ReversalOf(id, capture)); t.row == LostToRefund(s.row) && t.given == s.given
  {
    var found := Next(Next(s, Arrive(id, Reversal(capture, true))), Step(id, true));
    var held := Next(found, Step(id, true));
    assert found.jobs[id] == ReversalFound(capture, true) && held.jobs[id] == ReversalHolds(capture, true);
    RunTwo(s, Arrive(id, Reversal(capture, true)), Step(id, true), [Step(id, true), Step(id, true)]);
    assert [Step(id, true), Step(id, true)] + [] == [Step(id, true), Step(id, true)];
    RunTwo(found, Step(id, true), Step(id, true), []);
  }

  /** From a free row the one who can change the label does so. */
  lemma {:induction false} FreeRowRelabelled(s: State) returns (events: seq<Event>)
    requires StatusInv(s) && s.lock == None && Terminal(s.row.status) && Unsettled(s)
    ensures Run(s, events).row.status != s.row.status
  {
    if s.row.how == PayPal && s.row.status == Cancelled && s.row.pay == Paid {
      var id := Unused(s.jobs.Keys);
      ReversalRelabels(s, id, s.row.charge.value);
      events := ReversalOf(id, s.row.charge.value);
    } else {
      var id :| id in s.jobs && Remarking(s, s.jobs[id]);
      var held := Next(s, Step(id, true));
      assert held.jobs[id].StaffHolds? && held.row == s.row;
      events := [Step(id, true), Step(id, true)] + [];
      RunTwo(s, Step(id, true), Step(id, true), []);
    }
  }

  /** The transaction holding the row fails: the row is free and as it was. */
  lemma {:induction false} AbortFrees(s: State)
    requires StatusInv(s) && s.lock.Some?
    ensures var t := Next(s, Step(s.lock.value, false));
            && StatusInv(t) && t.lock == None && t.row == s.row
            && t.jobs == s.jobs[s.lock.value := Over]
  {
    StepStatusInv(s, Step(s.lock.value, false));
  }

  /**
   * Some continuation changes the label of a closed order exactly when it is a cancelled PayPal order
   * still PAID, whose own refund then writes REFUNDED, or a re-marking of another label is under way.
   */
  lemma {:induction false} ClosedLabelChangesIff(s: State)
    requires StatusInv(s) && Terminal(s.row.status)
    ensures (exists events :: Run(s, events).row.status != s.row.status) <==> Unsettled(s)
  {
    if Unsettled(s) {
      var events := UnsettledRelabelled(s);
      assert Run(s, events).row.status != s.row.status;
    } else {
      forall events ensures Run(s, events).row.status == s.row.status {
        SettledStays(s, events);
      }
    }
  }

  lemma {:induction false} UnsettledRelabelled(s: State) returns (events: seq<Event>)
    requires StatusInv(s) && Terminal(s.row.status) && Unsettled(s)
    ensures Run(s, events).row.status != s.row.status
  {
    if s.lock == None {
      events := FreeRowRelabelled(s);
    } else {
      var id := s.lock.value;
      if Remarking(s, s.jobs[id]) {
        RunOne(s, Step(id, true), []);
        events := [Step(id, true)] + [];
      } else {
        var t := Next(s, Step(id, false));
        AbortFrees(s);
        if j :| j in s.jobs && Remarking(s, s.jobs[j]) {
          assert Remarking(t, t.jobs[j]);
        }
        var rest := FreeRowRelabelled(t);
        RunOne(s, Step(id, false), rest);
        events := [Step(id, false)] + rest;
      }
    }
  }

  // ---- When a recorded payment is replaced -----------------------------------------------------

  /** PayPal takes a capture back by dispute; another payment of the right amount then confirms the order again. */
  function DisputeOf(id: Id, capture: Id): seq<Event> {
    [Arrive(id, Reversal(capture, false)), Step(id, true)] + [Step(id, true), Step(id, true)]
  }

  function PaymentOf(id: Id, payment: Id): seq<Event> {
    [Arrive(id, Webhook(payment)), Step(id, true)] + [Step(id, true), Step(id, true)]
  }

  lemma {:induction false} DisputeReopens(s: State, id: Id, capture: Id)
    requires s.lock == None && id !in s.jobs && s.row.how == PayPal && s.row.charge == Some(capture)
    requires Reversible(s.row, false)
    ensures var t := Run(s, DisputeOf(id, capture));
            && t.row == s.row.(pay := Disputed) && t.lock == None && t.exact == s.exact && t.jobs == s.jobs[id := Over]
            && t.checkouts == s.checkouts
  {
    var found := Next(Next(s, Arrive(id, Reversal(capture, false))), Step(id, true));
    var held := Next(found, Step(id, true));
    assert found.jobs[id] == ReversalFound(capture, false) && held.jobs[id] == ReversalHolds(capture, false);
    RunTwo(s, Arrive(id, Reversal(capture, false)), Step(id, true), [Step(id, true), Step(id, true)]);
    assert [Step(id, true), Step(id, true)] + [] == [Step(id, true), Step(id, true)];
    RunTwo(found, Step(id, true), Step(id, true), []);
  }

  lemma {:induction false} PaymentConfirms(s: State, id: Id, payment: Id)
    requires s.lock == None && id !in s.jobs && Gateway(s.row.how) && Claimable(s.row) && payment in s.exact && Own(s, payment)
    ensures Run(s, PaymentOf(id, payment)).row.charge == Some(payment)
  {
    var read := Next(Next(s, Arrive(id, Webhook(payment))), Step(id, true));
    var held := Next(read, Step(id, true));
    assert read.jobs[id] == WebhookRead(payment, s.row) && held.jobs[id] == WebhookHolds(payment, s.row);
    RunTwo(s, Arrive(id, Webhook(payment)), Step(id, true), [Step(id, true), Step(id, true)]);
    assert [Step(id, true), Step(id, true)] + [] == [Step(id, true), Step(id, true)];
    RunTwo(read, Step(id, true), Step(id, true), []);
  }

  lemma {:induction false} ConcatRuns(s: State, a: seq<Event>, b: seq<Event>)
    ensures Run(s, a + b) == Run(Run(s, a), b)
    decreases |a|
  {
    if a == [] {
      assert a + b == b;
    } else {
      assert (a + b)[1..] == a[1..] + b;
      ConcatRuns(Next(s, a[0]), a[1..], b);
    }
  }

  /** A checkout the order pays through already, or may still come to pay through. */
  ghost predicate Payable(s: State, reference: Id) {
    || s.checkouts.current == Some(reference)
    || reference !in s.checkouts.issued
    || exists id :: id in s.jobs && CheckoutJob(s.jobs[id]) && s.jobs[id].reference == reference
  }

  /** A delivery of the payment has passed its read and not yet finished. */
  predicate PastRead(job: Job, payment: Id) {
    (job.WebhookRead? || job.WebhookHolds?) && job.payment == payment
  }

  ghost predicate Deliverable(s: State, payment: Id) {
    || (payment in s.checkouts.of && Payable(s, s.checkouts.of[payment]))
    || exists id :: id in s.jobs && PastRead(s.jobs[id], payment)
  }

  /** Another payment of the right amount can still be confirmed on this open PayPal order. */
  ghost predicate Replaceable(s: State) {
    && s.row.how == PayPal && !Terminal(s.row.status)
    && exists payment :: payment in s.exact && Some(payment) != s.row.charge && Deliverable(s, payment)
  }

  /** What one step can add: a checkout's own request writes it, a read of the order's own payment passes. */
  ghost predicate Narrows(s: State, t: State, id: Id) {
    && id in s.jobs && id in t.jobs
    && (CheckoutJob(t.jobs[id]) ==> CheckoutJob(s.jobs[id]) && s.jobs[id].reference == t.jobs[id].reference)
    && (t.checkouts == s.checkouts
        || (CheckoutJob(s.jobs[id]) && t.checkouts == s.checkouts.(current := Some(s.jobs[id].reference))))
    && (t.jobs[id].WebhookRead? || t.jobs[id].WebhookHolds? ==>
          PastRead(s.jobs[id], t.jobs[id].payment) || (s.jobs[id] == Webhook(t.jobs[id].payment) && Own(s, t.jobs[id].payment)))
    && (t.row.charge != s.row.charge ==> s.jobs[id].WebhookHolds? && t.row.charge == Some(s.jobs[id].payment))
  }

  lemma {:induction false} StaffNarrows(s: State, id: Id, ok: bool)
    requires id in s.jobs && StaffJob(s.jobs[id])
    ensures Narrows(s, StaffStep(s, id, s.jobs[id], ok), id)
  {
  }

  lemma {:induction false} WebhookNarrows(s: State, id: Id, ok: bool)
    requires id in s.jobs && WebhookJob(s.jobs[id])
    ensures Narrows(s, WebhookStep(s, id, s.jobs[id], ok), id)
  {
  }

  lemma {:induction false} OtherNarrows(s: State, id: Id, ok: bool)
    requires id in s.jobs && !StaffJob(s.jobs[id]) && !WebhookJob(s.jobs[id])
    ensures Narrows(s, OtherStep(s, id, s.jobs[id], ok), id)
  {
  }

  lemma {:induction false} AdvanceNarrows(s: State, id: Id, ok: bool)
    requires id in s.jobs
    ensures Narrows(s, Advance(s, id, ok), id)
  {
    if StaffJob(s.jobs[id]) {
      StaffNarrows(s, id, ok);
    } else if WebhookJob(s.jobs[id]) {
      WebhookNarrows(s, id, ok);
    } else {
      OtherNarrows(s, id, ok);
    }
  }

  lemma {:induction false} PayableShrinks(s: State, t: State, id: Id, reference: Id)
    requires Narrows(s, t, id) && t.jobs == s.jobs[id := t.jobs[id]] && Payable(t, reference)
    ensures Payable(s, reference)
  {
    if j :| j in t.jobs && CheckoutJob(t.jobs[j]) && t.jobs[j].reference == reference {
      assert j in s.jobs && CheckoutJob(s.jobs[j]) && s.jobs[j].reference == reference;
    }
  }

  lemma {:induction false} StepShrinks(s: State, t: State, id: Id, payment: Id)
    requires s.row.how == PayPal && t.checkouts.of == s.checkouts.of
    requires Narrows(s, t, id) && t.jobs == s.jobs[id := t.jobs[id]] && Deliverable(t, payment)
    ensures Deliverable(s, payment)
  {
    if payment in t.checkouts.of && Payable(t, t.checkouts.of[payment]) {
      PayableShrinks(s, t, id, t.checkouts.of[payment]);
    } else {
      var j :| j in t.jobs && PastRead(t.jobs[j], payment);
      assert PastRead(s.jobs[j], payment) || Own(s, payment);
    }
  }

  lemma {:induction false} ArrivalShrinks(s: State, id: Id, job: Job, payment: Id)
    requires Deliverable(Next(s, Arrive(id, job)), payment) && id !in s.jobs && Arrival(s, job)
    ensures Deliverable(s, payment)
  {
    var t := Next(s, Arrive(id, job));
    assert t.jobs == s.jobs[id := job];
    if payment in t.checkouts.of && Payable(t, t.checkouts.of[payment]) {
      if j :| j in t.jobs && CheckoutJob(t.jobs[j]) && t.jobs[j].reference == t.checkouts.of[payment] {
        assert j in s.jobs ==> CheckoutJob(s.jobs[j]);
      }
      assert Payable(s, s.checkouts.of[payment]);
    } else {
      var j :| j in t.jobs && PastRead(t.jobs[j], payment);
      assert j in s.jobs;
    }
  }

  /** No step makes a replaced checkout payable again, nor lets its payments past their read. */
  lemma {:induction false} DeliverableShrinks(s: State, e: Event, payment: Id)
    requires StatusInv(s) && s.row.how == PayPal && Deliverable(Next(s, e), payment)
    ensures Deliverable(s, payment)
  {
    if e.Step? && e.id in s.jobs {
      AdvanceNarrows(s, e.id, e.ok);
      AdvanceGood(s, e.id, e.ok);
      StepShrinks(s, Next(s, e), e.id, payment);
    } else if e.Arrive? && e.id !in s.jobs && Arrival(s, e.job) {
      ArrivalShrinks(s, e.id, e.job, payment);
    }
  }

  lemma {:induction false} IrreplaceableStep(s: State, e: Event)
    requires StatusInv(s) && s.row.how == PayPal && s.row.charge.Some? && !Replaceable(s)
    ensures var t := Next(s, e); t.row.charge == s.row.charge && !Replaceable(t)
  {
    var t := Next(s, e);
    StepStatusInv(s, e);
    if e.Step? && e.id in s.jobs {
      AdvanceNarrows(s, e.id, e.ok);
      assert JobStands(s, s.jobs[e.id]);
      if s.jobs[e.id].WebhookHolds? {
        assert PastRead(s.jobs[e.id], s.jobs[e.id].payment);
      }
    }
    if payment :| payment in t.exact && Some(payment) != t.row.charge && Deliverable(t, payment) {
      DeliverableShrinks(s, e, payment);
    }
  }

  lemma {:induction false} IrreplaceableStays(s: State, events: seq<Event>)
    requires StatusInv(s) && s.row.how == PayPal && s.row.charge.Some? && !Replaceable(s)
    ensures Run(s, events).row.charge == s.row.charge
    decreases |events|
  {
    if events != [] {
      StepStatusInv(s, events[0]);
      IrreplaceableStep(s, events[0]);
      IrreplaceableStays(Next(s, events[0]), events[1..]);
    }
  }

  /** A delivery past its read confirms the payment once the row is free. */
  lemma {:induction false} ReadConfirms(s: State, id: Id, payment: Id)
    requires s.lock == None && Claimable(s.row) && id in s.jobs && s.jobs[id].WebhookRead? && s.jobs[id].payment == payment
    ensures Run(s, [Step(id, true), Step(id, true)] + []).row.charge == Some(payment)
  {
    RunTwo(s, Step(id, true), Step(id, true), []);
    var held := Next(s, Step(id, true));
    assert held.jobs[id].WebhookHolds?;
  }

  /** A checkout whose buyer was let through becomes the order's own, and its capture confirms the order. */
  lemma {:induction false} OpenedConfirms(s: State, id: Id, payment: Id) returns (events: seq<Event>)
    requires s.lock == None && s.row.how == PayPal && Claimable(s.row) && payment in s.exact && payment in s.checkouts.of
    requires id in s.jobs && s.jobs[id] == CheckoutRead(s.checkouts.of[payment])
    ensures Run(s, events).row.charge == Some(payment)
  {
    var t := Next(s, Step(id, true));
    assert t.checkouts.current == Some(s.checkouts.of[payment]) && t.lock == None;
    var free := Unused(t.jobs.Keys);
    PaymentConfirms(t, free, payment);
    RunOne(s, Step(id, true), PaymentOf(free, payment));
    events := [Step(id, true)] + PaymentOf(free, payment);
  }

  lemma {:induction false} AskedConfirms(s: State, id: Id, payment: Id) returns (events: seq<Event>)
    requires s.lock == None && s.row.how == PayPal && Claimable(s.row) && payment in s.exact && payment in s.checkouts.of
    requires id in s.jobs && s.jobs[id] == Checkout(s.checkouts.of[payment])
    ensures Run(s, events).row.charge == Some(payment)
  {
    var rest := OpenedConfirms(Next(s, Step(id, true)), id, payment);
    RunOne(s, Step(id, true), rest);
    events := [Step(id, true)] + rest;
  }

  /** From a free, unpaid row the payment is confirmed whichever way it is deliverable. */
  lemma {:induction false} PayableConfirms(s: State, payment: Id) returns (events: seq<Event>)
    requires s.lock == None && s.row.how == PayPal && Claimable(s.row) && payment in s.exact && payment in s.checkouts.of
    requires Payable(s, s.checkouts.of[payment])
    ensures Run(s, events).row.charge == Some(payment)
  {
    var reference := s.checkouts.of[payment];
    var free := Unused(s.jobs.Keys);
    if s.checkouts.current == Some(reference) {
      PaymentConfirms(s, free, payment);
      events := PaymentOf(free, payment);
    } else if reference !in s.checkouts.issued {
      var rest := AskedConfirms(Next(s, Arrive(free, Checkout(reference))), free, payment);
      RunOne(s, Arrive(free, Checkout(reference)), rest);
      events := [Arrive(free, Checkout(reference))] + rest;
    } else {
      var id :| id in s.jobs && CheckoutJob(s.jobs[id]) && s.jobs[id].reference == reference;
      if s.jobs[id].Checkout? {
        events := AskedConfirms(s, id, payment);
      } else {
        events := OpenedConfirms(s, id, payment);
      }
    }
  }

  lemma {:induction false} DeliverableConfirms(s: State, payment: Id) returns (events: seq<Event>)
    requires LockOk(s) && s.lock == None && s.row.how == PayPal && Claimable(s.row) && payment in s.exact
    requires Deliverable(s, payment)
    ensures Run(s, events).row.charge == Some(payment)
  {
    if payment in s.checkouts.of && Payable(s, s.checkouts.of[payment]) {
      events := PayableConfirms(s, payment);
    } else {
      var id :| id in s.jobs && PastRead(s.jobs[id], payment);
      assert !Holding(s.jobs[id]);
      ReadConfirms(s, id, payment);
      events := [Step(id, true), Step(id, true)] + [];
    }
  }

  /** What is deliverable stays so when only the listed job is over. */
  lemma {:induction false} DeliverableWithout(s: State, t: State, id: Id, payment: Id)
    requires Deliverable(s, payment) && t.jobs == s.jobs[id := Over]
    requires t.checkouts == s.checkouts
    requires id in s.jobs ==> Holding(s.jobs[id]) && !PastRead(s.jobs[id], payment)
    ensures Deliverable(t, payment)
  {
    if payment in s.checkouts.of && Payable(s, s.checkouts.of[payment]) {
      if j :| j in s.jobs && CheckoutJob(s.jobs[j]) && s.jobs[j].reference == s.checkouts.of[payment] {
        assert t.jobs[j] == s.jobs[j];
      }
      assert Payable(t, t.checkouts.of[payment]);
    } else {
      var j :| j in s.jobs && PastRead(s.jobs[j], payment);
      assert t.jobs[j] == s.jobs[j];
    }
  }

  lemma {:induction false} FreeRowReplaced(s: State, payment: Id) returns (events: seq<Event>)
    requires StatusInv(s) && s.lock == None && s.row.charge.Some? && s.row.how == PayPal && !Terminal(s.row.status)
    requires payment in s.exact && Deliverable(s, payment)
    ensures Run(s, events).row.charge == Some(payment)
  {
    if Claimable(s.row) {
      events := DeliverableConfirms(s, payment);
    } else {
      var id := Unused(s.jobs.Keys);
      var dispute := DisputeOf(id, s.row.charge.value);
      var t := Run(s, dispute);
      DisputeReopens(s, id, s.row.charge.value);
      RunStatusInv(s, dispute);
      DeliverableWithout(s, t, id, payment);
      var rest := DeliverableConfirms(t, payment);
      ConcatRuns(s, dispute, rest);
      events := dispute + rest;
    }
  }

  lemma {:induction false} ReplaceableReplaced(s: State) returns (events: seq<Event>)
    requires StatusInv(s) && s.row.charge.Some? && Replaceable(s)
    ensures Run(s, events).row.charge != s.row.charge
  {
    var payment :| payment in s.exact && Some(payment) != s.row.charge && Deliverable(s, payment);
    if s.lock == None {
      events := FreeRowReplaced(s, payment);
    } else if PastRead(s.jobs[s.lock.value], payment) {
      RunOne(s, Step(s.lock.value, true), []);
      events := [Step(s.lock.value, true)] + [];
    } else {
      var t := Next(s, Step(s.lock.value, false));
      AbortFrees(s);
      DeliverableWithout(s, t, s.lock.value, payment);
      var rest := FreeRowReplaced(t, payment);
      RunOne(s, Step(s.lock.value, false), rest);
      events := [Step(s.lock.value, false)] + rest;
    }
  }

  /**
   * Some continuation replaces the recorded payment exactly when the order is PayPal's, still open,
   * and another payment of the right amount has passed its read or is for a checkout the order pays,
   * or may yet pay, through: a dispute in between makes room for it.
   */
  lemma {:induction false} ChargeReplacedIff(s: State)
    requires Inv(s) && s.row.charge.Some?
    ensures (exists events :: Run(s, events).row.charge != s.row.charge) <==> Replaceable(s)
  {
    if Replaceable(s) {
      var events := ReplaceableReplaced(s);
      assert Run(s, events).row.charge != s.row.charge;
    } else {
      forall events ensures Run(s, events).row.charge == s.row.charge {
        if s.row.how == PayPal {
          IrreplaceableStays(s, events);
        } else {
          RunInv(s, events);
        }
      }
    }
  }

  // ---- Runs that do so ---------------------------------------------------------------------------

  /** Staff open a confirmed unpaid order, the payment lands, then the cancellation goes through. */
  function StrandingRun(rest: seq<Event>): seq<Event> {
    [Arrive(0, Staff(Cancelled)), Step(0, true)]
    + ([Arrive(1, Webhook(7)), Step(1, true)]
       + ([Step(1, true), Step(1, true)]
          + ([Step(0, true), Step(0, true)] + rest)))
  }

  function ReadByStaff(s: State): State {
    s.(jobs := map[0 := StaffRead(Cancelled, s.row)])
  }

  function ReadByBoth(s: State): State {
    s.(jobs := map[0 := StaffRead(Cancelled, s.row), 1 := WebhookRead(7, s.row)])
  }

  function PaidMeanwhile(s: State): State {
    s.(row := Settled(s.row, Some(7)), invoices := 1, links := if s.links == NoneYet then Live else NoFiles,
       jobs := map[0 := StaffRead(Cancelled, s.row), 1 := Delivered(7, s.row, true)])
  }

  function Stranded(s: State): State {
    s.(row := s.row.(status := Cancelled, pay := Paid, charge := Some(7)), invoices := 1, given := 1,
       links := if s.links == NoneYet then Live else NoFiles,
       jobs := map[0 := Over, 1 := Delivered(7, s.row, true)])
  }

  /** An online order confirmed before any payment, and a payment of the right amount. */
  ghost predicate Exposed(s: State) {
    Fresh(s) && Gateway(s.row.how) && s.row.status == Confirmed && 7 in s.exact && Own(s, 7)
  }

  lemma {:induction false} BothRead(s: State)
    requires Exposed(s)
    ensures Next(Next(s, Arrive(0, Staff(Cancelled))), Step(0, true)) == ReadByStaff(s)
    ensures Next(Next(ReadByStaff(s), Arrive(1, Webhook(7))), Step(1, true)) == ReadByBoth(s)
  {
    var staff := Next(s, Arrive(0, Staff(Cancelled)));
    assert staff.jobs == map[0 := Staff(Cancelled)];
    var webhook := Next(ReadByStaff(s), Arrive(1, Webhook(7)));
    assert webhook.jobs == map[0 := StaffRead(Cancelled, s.row), 1 := Webhook(7)];
  }

  lemma {:induction false} PaymentLands(s: State)
    requires Exposed(s)
    ensures Next(Next(ReadByBoth(s), Step(1, true)), Step(1, true)) == PaidMeanwhile(s)
  {
    var held := Next(ReadByBoth(s), Step(1, true));
    assert held.jobs == map[0 := StaffRead(Cancelled, s.row), 1 := WebhookHolds(7, s.row)];
  }

  lemma {:induction false} StaleClaimGoesThrough(s: State)
    requires Exposed(s)
    ensures Next(Next(PaidMeanwhile(s), Step(0, true)), Step(0, true)) == Stranded(s)
  {
    var claimed := Next(PaidMeanwhile(s), Step(0, true));
    assert claimed.jobs == map[0 := StaffHolds(Cancelled, s.row), 1 := Delivered(7, s.row, true)];
  }

  lemma {:induction false} RunVia(s: State, first: Event, second: Event, mid: State, rest: seq<Event>)
    requires Next(Next(s, first), second) == mid
    ensures Run(s, [first, second] + rest) == Run(mid, rest)
  {
    RunTwo(s, first, second, rest);
  }

  lemma {:induction false} StrandingReads(s: State, rest: seq<Event>)
    requires Exposed(s)
    ensures Run(s, [Arrive(0, Staff(Cancelled)), Step(0, true)] + ([Arrive(1, Webhook(7)), Step(1, true)] + rest))
            == Run(ReadByBoth(s), rest)
  {
    BothRead(s);
    RunVia(s, Arrive(0, Staff(Cancelled)), Step(0, true), ReadByStaff(s), [Arrive(1, Webhook(7)), Step(1, true)] + rest);
    RunVia(ReadByStaff(s), Arrive(1, Webhook(7)), Step(1, true), ReadByBoth(s), rest);
  }

  lemma {:induction false} StrandingWrites(s: State, rest: seq<Event>)
    requires Exposed(s)
    ensures Run(ReadByBoth(s), [Step(1, true), Step(1, true)] + ([Step(0, true), Step(0, true)] + rest))
            == Run(Stranded(s), rest)
  {
    PaymentLands(s);
    RunVia(ReadByBoth(s), Step(1, true), Step(1, true), PaidMeanwhile(s), [Step(0, true), Step(0, true)] + rest);
    StaleClaimGoesThrough(s);
    RunVia(PaidMeanwhile(s), Step(0, true), Step(0, true), Stranded(s), rest);
  }

  lemma {:induction false} StrandingThen(s: State, rest: seq<Event>)
    requires Exposed(s)
    ensures Run(s, StrandingRun(rest)) == Run(Stranded(s), rest)
  {
    StrandingReads(s, [Step(1, true), Step(1, true)] + ([Step(0, true), Step(0, true)] + rest));
    StrandingWrites(s, rest);
  }

  /** So a run of ordinary steps can leave an order cancelled, its payment kept and everyone finished. */
  lemma {:induction false} StaleCancelStrandsPayment(s: State)
    requires Exposed(s)
    ensures var t := Run(s, StrandingRun([]));
            && t.row.status == Cancelled && t.row.pay == Paid && t.row.charge == Some(7) && t.asked == {}
            && t.lock == None && t.jobs == map[0 := Over, 1 := Delivered(7, s.row, true)]
            && (s.links == NoneYet ==> Downloadable(t))
  {
    StrandingThen(s, []);
  }

  /** Marking it cancelled once more then writes that the payment was returned, and still nobody is asked for it. */
  function MarkedAgain(): seq<Event> {
    [Arrive(2, Staff(Cancelled)), Step(2, true)] + [Step(2, true), Step(2, true)]
  }

  lemma {:induction false} MarkedAgainFalselyReturned(s: State)
    requires Exposed(s)
    ensures var t := Run(s, StrandingRun(MarkedAgain()));
            && t.row.status == Cancelled && t.row.pay == Returned && t.row.charge == Some(7)
            && t.asked == {} && t.reversed == {} && t.torn == {} && t.lock == None
  {
    var closed := Stranded(s);
    StrandingThen(s, MarkedAgain());
    var read := Next(Next(closed, Arrive(2, Staff(Cancelled))), Step(2, true));
    assert read.jobs == closed.jobs[2 := StaffRead(Cancelled, closed.row)];
    var held := Next(read, Step(2, true));
    assert held.jobs[2] == StaffHolds(Cancelled, closed.row);
    RunTwo(closed, Arrive(2, Staff(Cancelled)), Step(2, true), [Step(2, true), Step(2, true)]);
    assert [Step(2, true), Step(2, true)] + [] == [Step(2, true), Step(2, true)];
    RunTwo(read, Step(2, true), Step(2, true), []);
  }

  /** The buyer opens another PayPal checkout before the capture of the first one completes. */
  function TwoCheckouts(reference: Id): seq<Event> {
    [Arrive(0, Checkout(reference)), Step(0, true)] + ([Step(0, true), Arrive(1, Webhook(7))] + [Step(1, true)])
  }

  /** The payment of an open order's replaced checkout, though of the right amount, is neither recorded nor returned. */
  lemma {:induction false} ReplacedCheckoutKeepsPayment(s: State, reference: Id)
    requires Exposed(s) && s.row.how == PayPal && reference !in s.checkouts.issued && s.checkouts.of[7] != reference
    ensures var t := Run(s, TwoCheckouts(reference));
            && t.row == s.row && Claimable(t.row) && t.asked == {} && t.lock == None
            && t.jobs == map[0 := Over, 1 := Delivered(7, s.row, false)]
  {
    var read := Next(Next(s, Arrive(0, Checkout(reference))), Step(0, true));
    assert read.jobs == map[0 := CheckoutRead(reference)];
    var written := Next(Next(read, Step(0, true)), Arrive(1, Webhook(7)));
    assert written.jobs == map[0 := Over, 1 := Webhook(7)];
    assert Next(written, Step(1, true)).jobs == map[0 := Over, 1 := Delivered(7, s.row, false)];
    RunTwo(s, Arrive(0, Checkout(reference)), Step(0, true), [Step(0, true), Arrive(1, Webhook(7))] + [Step(1, true)]);
    RunTwo(read, Step(0, true), Arrive(1, Webhook(7)), [Step(1, true)]);
    assert [Step(1, true)] + [] == [Step(1, true)];
    RunOne(written, Step(1, true), []);
  }

  /** On a PayPal order its refund by PayPal then writes REFUNDED over CANCELLED, its stock long given back. */
  lemma {:induction false} CancelledTurnsRefunded(s: State)
    requires Exposed(s) && s.row.how == PayPal
    ensures Run(s, StrandingRun([])).row.status == Cancelled
    ensures var t := Run(s, StrandingRun(ReversalOf(2, 7))); t.row.status == Refunded && t.given == 1
  {
    StrandingThen(s, []);
    StrandingThen(s, ReversalOf(2, 7));
    ReversalRelabels(Stranded(s), 2, 7);
  }

  function RefundedRun(): seq<Event> {
    [Arrive(0, Staff(Refunded)), Step(0, true)] + ([Step(0, true), Step(0, true)] + [Arrive(1, Webhook(7)), Step(1, true)])
  }

  /** Staff label an unpaid online order REFUNDED; the payment that comes after is neither recorded nor returned. */
  lemma {:induction false} RefundedLabelKeepsPayment(s: State)
    requires Exposed(s)
    ensures var t := Run(s, RefundedRun());
            && t.row.status == Refunded && t.row.charge == None && t.asked == {}
            && t.jobs == map[0 := Over, 1 := Delivered(7, t.row, true)]
  {
    var labelled := s.(row := s.row.(status := Refunded), jobs := map[0 := Over]);
    var read := s.(jobs := map[0 := StaffRead(Refunded, s.row)]);
    assert Next(s, Arrive(0, Staff(Refunded))).jobs == map[0 := Staff(Refunded)];
    assert Next(Next(s, Arrive(0, Staff(Refunded))), Step(0, true)) == read;
    assert Next(read, Step(0, true)).jobs == map[0 := StaffHolds(Refunded, s.row)];
    assert Next(Next(read, Step(0, true)), Step(0, true)) == labelled;
    var last := [Arrive(1, Webhook(7)), Step(1, true)];
    RunTwo(s, Arrive(0, Staff(Refunded)), Step(0, true), [Step(0, true), Step(0, true)] + last);
    RunTwo(read, Step(0, true), Step(0, true), last);
    assert last + [] == last;
    RunTwo(labelled, Arrive(1, Webhook(7)), Step(1, true), []);
  }
}
