/** Plan billing: Stripe's webhooks mirrored onto the store's subscription row, in whatever order they come. */
module Billing {
  import opened Base

  /** The store's subscription row. */
  datatype Sub = Sub(plan: Id, expiresAt: Option<int>, card: bool, stripe: Option<Id>, customer: Option<Id>,
                     cancelling: bool)

  /** A Stripe subscription as Stripe has it when a webhook asks for it. */
  datatype Retrieved = Retrieved(id: Id, plan: Id, customer: Id, periodEnd: int, paidUp: bool, cancelling: bool)

  datatype Delivery =
    | Checkout(sub: Retrieved)
    | LifetimeBought(plan: Id, customer: Option<Id>)
    | InvoicePaid(sub: Retrieved)
    | Updated(id: Id, cancelling: bool)
    | Deleted(id: Id)

  function Activated(r: Retrieved): Sub {
    Sub(r.plan, Some(r.periodEnd), true, Some(r.id), Some(r.customer), r.cancelling)
  }

  /** The Stripe subscription this one would replace, if any. */
  function Replacing(row: Option<Sub>, r: Retrieved): Option<Id> {
    if row.Some? && row.value.stripe.Some? && row.value.stripe != Some(r.id) then row.value.stripe else None
  }

  /** Only a completed checkout, the store choosing a plan, may replace the current subscription. */
  function Apply(row: Option<Sub>, r: Retrieved, fromCheckout: bool): Option<Sub> {
    if !r.paidUp then row
    else if Replacing(row, r).Some? && !fromCheckout then row
    else Some(Activated(r))
  }

  /** A lifetime plan, paid once: nothing for Stripe to renew, and the customer is kept when not told. */
  function Lifetime(row: Option<Sub>, plan: Id, customer: Option<Id>): Sub {
    var known := if row.Some? && customer.None? then row.value.customer else customer;
    Sub(plan, None, false, None, known, false)
  }

  function Handle(row: Option<Sub>, d: Delivery): Option<Sub> {
    match d
    case Checkout(r) => Apply(row, r, true)
    case LifetimeBought(plan, customer) => Some(Lifetime(row, plan, customer))
    case InvoicePaid(r) => Apply(row, r, false)
    case Updated(id, cancelling) =>
      if row.Some? && row.value.stripe == Some(id) then Some(row.value.(cancelling := cancelling)) else row
    case Deleted(id) =>
      if row.Some? && row.value.stripe == Some(id) then
        Some(row.value.(stripe := None, card := false, cancelling := false))
      else row
  }

  function Run(row: Option<Sub>, ds: seq<Delivery>): Option<Sub> {
    if ds == [] then row else Handle(Run(row, ds[..|ds| - 1]), ds[|ds| - 1])
  }

  /** The subscription Stripe is asked to cancel because this delivery replaced it. */
  function Dropped(row: Option<Sub>, d: Delivery): set<Id> {
    if row.None? || row.value.stripe.None? then {}
    else if d.LifetimeBought? || (d.Checkout? && d.sub.paidUp && row.value.stripe.value != d.sub.id) then
      {row.value.stripe.value}
    else {}
  }

  class Service {
    var row: Option<Sub>
    var cancelled: set<Id>

    constructor (row: Option<Sub>)
      ensures this.row == row && cancelled == {}
    {
      this.row, cancelled := row, {};
    }

    /** Mirrors a paid subscription; the one it replaces is cancelled at Stripe. */
    method ApplyStripeSubscription(r: Retrieved, fromCheckout: bool)
      modifies this
      ensures row == Apply(old(row), r, fromCheckout)
      ensures cancelled == old(cancelled) + if fromCheckout then Dropped(old(row), Checkout(r)) else {}
    {
      if !r.paidUp {
        return;
      }
      var replacing := Replacing(row, r);
      if replacing.Some? && !fromCheckout {
        return;
      }
      row := Some(Activated(r));
      if replacing.Some? {
        cancelled := cancelled + {replacing.value};
      }
    }

    method ActivateLifetime(plan: Id, customer: Option<Id>)
      modifies this
      ensures row == Some(Lifetime(old(row), plan, customer))
      ensures cancelled == old(cancelled) + Dropped(old(row), LifetimeBought(plan, customer))
    {
      var current := row;
      row := Some(Lifetime(row, plan, customer));
      if current.Some? && current.value.stripe.Some? {
        cancelled := cancelled + {current.value.stripe.value};
      }
    }

    method Receive(d: Delivery)
      modifies this
      ensures row == Handle(old(row), d)
      ensures cancelled == old(cancelled) + Dropped(old(row), d)
    {
      match d
      case Checkout(r) => ApplyStripeSubscription(r, true);
      case LifetimeBought(plan, customer) => ActivateLifetime(plan, customer);
      case InvoicePaid(r) => ApplyStripeSubscription(r, false);
      case Updated(id, cancelling) =>
        if row.Some? && row.value.stripe == Some(id) {
          row := Some(row.value.(cancelling := cancelling));
        }
      case Deleted(id) =>
        if row.Some? && row.value.stripe == Some(id) {
          row := Some(row.value.(stripe := None, card := false, cancelling := false));
        }
    }
  }

  // ---- Changing plan --------------------------------------------------------------------------------

  /** Deliveries about the newly bought subscription: its checkout or a payment, always paid up. */
  predicate About(d: Delivery, bought: Id) {
    (d.Checkout? || d.InvoicePaid?) && d.sub.id == bought && d.sub.paidUp
  }

  /** Leftovers of other subscriptions: late payments in any state, and Stripe's notices about them. */
  predicate Leftover(d: Delivery, bought: Id) {
    match d
    case Checkout(r) => r.id != bought && !r.paidUp
    case LifetimeBought(_, _) => false
    case InvoicePaid(r) => r.id != bought
    case Updated(id, _) => id != bought
    case Deleted(id) => id != bought
  }

  /** News of the new subscription, leftovers of others, and the portal's changes to the new one. */
  ghost predicate Mixed(ds: seq<Delivery>, bought: Id) {
    forall d :: d in ds ==> About(d, bought) || Leftover(d, bought) || (d.Updated? && d.id == bought)
  }

  /** Stripe's period end never moves back between one delivery and the next. */
  ghost predicate Forward(ds: seq<Delivery>, bought: Id) {
    forall i, j :: 0 <= i < j < |ds| && About(ds[i], bought) && About(ds[j], bought) ==>
      ds[i].sub.periodEnd <= ds[j].sub.periodEnd
  }

  /** The last thing heard of the new subscription. */
  function LastHeard(ds: seq<Delivery>, bought: Id): (r: Option<Retrieved>)
    ensures r.Some? ==> r.value.id == bought
  {
    if ds == [] then None
    else if About(ds[|ds| - 1], bought) then Some(ds[|ds| - 1].sub)
    else LastHeard(ds[..|ds| - 1], bought)
  }

  /** Whether the new subscription was last said to end with its period. */
  function LastFlag(ds: seq<Delivery>, bought: Id): Option<bool> {
    if ds == [] then None
    else
      var last := ds[|ds| - 1];
      if About(last, bought) then Some(last.sub.cancelling)
      else if last.Updated? && last.id == bought then Some(last.cancelling)
      else LastFlag(ds[..|ds| - 1], bought)
  }

  lemma {:induction false} HeardIsLatest(ds: seq<Delivery>, bought: Id, i: nat)
    requires Forward(ds, bought) && i < |ds| && About(ds[i], bought)
    ensures LastHeard(ds, bought).Some? && ds[i].sub.periodEnd <= LastHeard(ds, bought).value.periodEnd
  {
    var n := |ds| - 1;
    if !About(ds[n], bought) {
      HeardIsLatest(ds[..n], bought, i);
    }
  }

  /**
   * Once its checkout is in, the row is the new subscription's, paid by card, with plan, customer and
   * period end as last heard and its renewal as last told; nothing left over touches it.
   */
  lemma {:induction false} SwitchedStays(row: Option<Sub>, ds: seq<Delivery>, bought: Id)
    requires Mixed(ds, bought) && exists d :: d in ds && d.Checkout? && About(d, bought)
    ensures LastHeard(ds, bought).Some? && LastFlag(ds, bought).Some? && Run(row, ds).Some?
    ensures var heard, end := LastHeard(ds, bought).value, Run(row, ds).value;
            && end.plan == heard.plan && end.customer == Some(heard.customer) && end.expiresAt == Some(heard.periodEnd)
            && end.stripe == Some(bought) && end.card && end.cancelling == LastFlag(ds, bought).value
  {
    var n := |ds| - 1;
    var init, last := ds[..n], ds[n];
    assert last in ds && forall d :: d in init ==> d in ds;
    if !(last.Checkout? && About(last, bought)) {
      var d :| d in ds && d.Checkout? && About(d, bought);
      assert d in init;
      SwitchedStays(row, init, bought);
    }
  }

  /** Delivery i is the last news of the new subscription. */
  predicate Latest(ds: seq<Delivery>, bought: Id, i: nat) {
    i < |ds| && About(ds[i], bought) && forall j :: i < j < |ds| ==> !About(ds[j], bought)
  }

  /**
   * Any order and duplication of the new subscription's checkout and payments, mixed with late
   * payments and notices of the one it replaced, ends on the plan and customer of its last news, with
   * its latest period end.
   */
  lemma {:induction false} PlanChangeConfluent(row: Option<Sub>, ds: seq<Delivery>, bought: Id)
    requires Mixed(ds, bought) && Forward(ds, bought)
    requires exists d :: d in ds && d.Checkout? && About(d, bought)
    ensures var end := Run(row, ds);
            && end.Some? && end.value.stripe == Some(bought) && end.value.card
            && (exists i: nat :: Latest(ds, bought, i)
                  && end.value.plan == ds[i].sub.plan && end.value.customer == Some(ds[i].sub.customer)
                  && end.value.expiresAt == Some(ds[i].sub.periodEnd))
            && (forall i :: 0 <= i < |ds| && About(ds[i], bought) ==>
                  end.value.expiresAt.Some? && ds[i].sub.periodEnd <= end.value.expiresAt.value)
  {
    SwitchedStays(row, ds, bought);
    var i := HeardSomewhere(ds, bought);
    forall i | 0 <= i < |ds| && About(ds[i], bought)
      ensures ds[i].sub.periodEnd <= LastHeard(ds, bought).value.periodEnd
    {
      HeardIsLatest(ds, bought, i);
    }
  }

  lemma {:induction false} HeardSomewhere(ds: seq<Delivery>, bought: Id) returns (i: nat)
    requires LastHeard(ds, bought).Some?
    ensures Latest(ds, bought, i) && ds[i].sub == LastHeard(ds, bought).value
  {
    var n := |ds| - 1;
    if About(ds[n], bought) {
      i := n;
    } else {
      i := HeardSomewhere(ds[..n], bought);
      assert forall j :: i < j < n ==> ds[..n][j] == ds[j];
    }
  }

  /** Two histories that last hear the same about the new subscription end in the same row, wherever they began. */
  lemma {:induction false} OrderDoesNotMatter(a: Option<Sub>, ds: seq<Delivery>, b: Option<Sub>, es: seq<Delivery>, bought: Id)
    requires Mixed(ds, bought) && Mixed(es, bought)
    requires exists d :: d in ds && d.Checkout? && About(d, bought)
    requires exists d :: d in es && d.Checkout? && About(d, bought)
    requires LastHeard(ds, bought) == LastHeard(es, bought) && LastFlag(ds, bought) == LastFlag(es, bought)
    ensures Run(a, ds) == Run(b, es)
  {
    SwitchedStays(a, ds, bought);
    SwitchedStays(b, es, bought);
  }

  // ---- Nothing goes on charging -----------------------------------------------------------------------

  /** All the subscriptions Stripe was asked to cancel. */
  function Cancelled(row: Option<Sub>, ds: seq<Delivery>): set<Id> {
    if ds == [] then {}
    else Cancelled(row, ds[..|ds| - 1]) + Dropped(Run(row, ds[..|ds| - 1]), ds[|ds| - 1])
  }

  predicate OnRow(row: Option<Sub>, id: Id) {
    row.Some? && row.value.stripe == Some(id)
  }

  /** A step takes a subscription off the row only by having it cancelled, or because Stripe ended it. */
  lemma {:induction false} LeavesCancelled(row: Option<Sub>, d: Delivery, id: Id)
    ensures OnRow(row, id) && !OnRow(Handle(row, d), id) ==> id in Dropped(row, d) || d == Deleted(id)
    ensures id in Dropped(row, d) ==> OnRow(row, id) && !OnRow(Handle(row, d), id)
  {
  }

  /**
   * Every subscription the row was ever on is still the row's, or Stripe was asked to cancel it or
   * ended it by itself: no replaced plan is left to go on charging the store.
   */
  lemma {:induction false} NoneLeftCharging(row: Option<Sub>, ds: seq<Delivery>, n: nat, id: Id)
    requires n <= |ds| && OnRow(Run(row, ds[..n]), id)
    ensures OnRow(Run(row, ds), id) || id in Cancelled(row, ds) || Deleted(id) in ds
  {
    var m := |ds| - 1;
    if n == |ds| {
      assert ds[..n] == ds;
    } else {
      assert ds[..m][..n] == ds[..n] && ds == ds[..m] + [ds[m]];
      NoneLeftCharging(row, ds[..m], n, id);
      LeavesCancelled(Run(row, ds[..m]), ds[m], id);
    }
  }

  /** Only a subscription that was the row's, and that this very delivery took off it, is cancelled. */
  lemma {:induction false} OnlyReplacedCancelled(row: Option<Sub>, ds: seq<Delivery>, id: Id) returns (n: nat)
    requires id in Cancelled(row, ds)
    ensures n < |ds| && OnRow(Run(row, ds[..n]), id) && !OnRow(Run(row, ds[..n + 1]), id)
  {
    var m := |ds| - 1;
    if id in Dropped(Run(row, ds[..m]), ds[m]) {
      n := m;
      LeavesCancelled(Run(row, ds[..m]), ds[m], id);
      assert ds[..m + 1] == ds;
    } else {
      n := OnlyReplacedCancelled(row, ds[..m], id);
      assert ds[..m][..n] == ds[..n] && ds[..m][..n + 1] == ds[..n + 1];
    }
  }

  /** When Stripe ends the row's subscription the store keeps what it paid for, without card or renewal. */
  lemma {:induction false} EndedKeepsWhatWasPaid(row: Option<Sub>, id: Id)
    ensures Handle(row, Deleted(id)) ==
            if OnRow(row, id)
            then Some(Sub(row.value.plan, row.value.expiresAt, false, None, row.value.customer, false)) else row
  {
  }

  // ---- What the guard leaves open -------------------------------------------------------------------

  /** Leftovers of subscriptions a lifetime plan replaced: anything but another purchase. */
  predicate NoPurchase(d: Delivery) {
    match d
    case Checkout(r) => !r.paidUp
    case LifetimeBought(_, _) => false
    case InvoicePaid(_) => true
    case Updated(_, _) => true
    case Deleted(_) => true
  }

  predicate LateCharge(d: Delivery) {
    d.InvoicePaid? && d.sub.paidUp
  }

  lemma {:induction false} DeliveryKeepsEndDate(row: Option<Sub>, d: Delivery)
    requires row.Some? && NoPurchase(d)
    ensures Handle(row, d).Some?
    ensures row.value.expiresAt.Some? || (LateCharge(d) && row.value.stripe.None?) ==> Handle(row, d).value.expiresAt.Some?
    ensures row.value.stripe.None? && !row.value.card && !row.value.cancelling && !LateCharge(d) ==> Handle(row, d) == row
  {
  }

  /**
   * The guard against late payments compares subscription ids, and a lifetime plan has none: the row
   * is switched off its lifetime plan exactly when some late payment arrives while Stripe still has
   * its subscription paid up, that is before the cancellation asked for has gone through.
   */
  lemma {:induction false} LifetimeLostIffLateCharge(row: Option<Sub>, plan: Id, customer: Option<Id>, ds: seq<Delivery>)
    requires forall d :: d in ds ==> NoPurchase(d)
    ensures var bought := Some(Lifetime(row, plan, customer));
            && ((forall d :: d in ds ==> !LateCharge(d)) ==> Run(bought, ds) == bought)
            && ((exists d :: d in ds && LateCharge(d)) ==> Run(bought, ds).Some? && Run(bought, ds).value.expiresAt.Some?)
  {
    if ds != [] {
      var n := |ds| - 1;
      var init, last := ds[..n], ds[n];
      assert last in ds && forall d :: d in init ==> d in ds;
      assert ds == init + [last];
      LifetimeLostIffLateCharge(row, plan, customer, init);
      DeliveryKeepsEndDate(Run(Some(Lifetime(row, plan, customer)), init), last);
    }
  }

  /**
   * A lifetime plan never expires, is charged by nobody and keeps the customer Stripe knew; its row
   * survives its leftovers if and only if none of them is such a payment.
   */
  lemma {:induction false} LifetimeKeptIff(row: Option<Sub>, plan: Id, customer: Option<Id>, ds: seq<Delivery>)
    requires forall d :: d in ds ==> NoPurchase(d)
    ensures var known := if customer.Some? || row.None? then customer else row.value.customer;
            var bought := Handle(row, LifetimeBought(plan, customer));
            && bought == Some(Sub(plan, None, false, None, known, false))
            && (Run(bought, ds) == bought <==> forall d :: d in ds ==> !LateCharge(d))
  {
    LifetimeLostIffLateCharge(row, plan, customer, ds);
  }

  /** Which paid-up checkout came last. */
  function LastCheckout(ds: seq<Delivery>): Option<Id> {
    if ds == [] then None
    else
      var last := ds[|ds| - 1];
      if last.Checkout? && last.sub.paidUp then Some(last.sub.id) else LastCheckout(ds[..|ds| - 1])
  }

  /**
   * A redelivered checkout of a replaced subscription passes the guard while Stripe still has it
   * paid up: until one of them ends, the row is on the subscription whose paid-up checkout was the
   * last to arrive, whatever payments and portal changes arrive in between.
   */
  lemma {:induction false} LastCheckoutWins(row: Option<Sub>, ds: seq<Delivery>)
    requires forall d :: d in ds ==> d.Checkout? || d.InvoicePaid? || d.Updated?
    ensures LastCheckout(ds).Some? <==> exists d :: d in ds && d.Checkout? && d.sub.paidUp
    ensures LastCheckout(ds).Some? ==> Run(row, ds).Some? && Run(row, ds).value.stripe == LastCheckout(ds)
  {
    if ds != [] {
      var n := |ds| - 1;
      assert ds[n] in ds && forall d :: d in ds[..n] ==> d in ds;
      assert ds == ds[..n] + [ds[n]];
      LastCheckoutWins(row, ds[..n]);
    }
  }
}
