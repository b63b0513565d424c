/** Whole runs of the store: every request, webhook, job and sweep is one atomic step, and a throw keeps nothing. */
module History {
  import opened Base
  import opened Lifecycle
  import opened Domain
  import opened Checkout
  import opened Editing
  import opened DigitalDelivery
  import opened OrderStatus
  import opened Settlement

  datatype Request =
    | PlaceOrder(basket: Basket, allowed: set<Method>, now: int)
    | ChangeStatus(order: nat, target: Status, canRefund: bool, accepted: bool)
    | CorrectOrder(order: nat, edit: Edit)
    | ExpireOrder(order: nat)
    | ReportPayment(order: nat, report: Report, now: int)
    | DeclinePayPal(order: nat, reference: Id)
    | StartPayPal(order: nat, reference: Id)
    | LosePayPal(order: nat, capture: Id, refunded: bool)
    | SendProof(order: nat, given: bool)
    | ConfirmZelle(order: nat, now: int)
    | PrepareEmail(order: nat, resend: bool, now: int)
    | EmailDone(order: nat, sent: bool)
    | ClickLink(order: nat, grant: nat, token: nat, now: int)
    | ChangeCatalogue(catalogue: map<Id, Product>)

  function Mail(db: Db, i: nat, sent: bool): Db {
    if i >= |db.orders| then db else db.(orders := db.orders[i := Mailed(db.orders[i], sent)])
  }

  function Handle(db: Db, r: Request): Db {
    match r
    case PlaceOrder(basket, allowed, now) => Create(db, basket, allowed, now).GetOr(db)
    case ChangeStatus(i, target, canRefund, accepted) => UpdateStatus(db, i, target, canRefund, accepted).GetOr(db)
    case CorrectOrder(i, edit) => UpdateDetails(db, i, edit).GetOr(db)
    case ExpireOrder(i) => Expire(db, i)
    case ReportPayment(i, report, now) => Settle(db, i, report, now)
    case DeclinePayPal(i, reference) => Decline(db, i, reference)
    case StartPayPal(i, reference) => OpenPayPal(db, i, reference).GetOr(db)
    case LosePayPal(i, capture, refunded) => Lose(db, i, capture, refunded)
    case SendProof(i, given) => GiveProof(db, i, given).GetOr(db)
    case ConfirmZelle(i, now) => ConfirmManual(db, i, now).GetOr(db)
    case PrepareEmail(i, resend, now) => Prepare(db, i, resend, now)
    case EmailDone(i, sent) => Mail(db, i, sent)
    case ClickLink(i, k, token, now) => Redeem(db, i, k, token, now)
    case ChangeCatalogue(catalogue) => db.(catalogue := catalogue)
  }

  function Run(db: Db, requests: seq<Request>): Db
    decreases |requests|
  {
    if requests == [] then db else Run(Handle(db, requests[0]), requests[1..])
  }

  lemma {:induction false} RunConcat(db: Db, a: seq<Request>, b: seq<Request>)
    ensures Run(db, a + b) == Run(Run(db, a), b)
    decreases |a|
  {
    if a == [] {
      assert a + b == b;
    } else {
      assert (a + b)[1..] == a[1..] + b;
      RunConcat(Handle(db, a[0]), a[1..], b);
    }
  }

  lemma {:induction false} RunSnoc(db: Db, requests: seq<Request>)
    requires requests != []
    ensures var n := |requests| - 1; Run(db, requests) == Handle(Run(db, requests[..n]), requests[n])
  {
    var n := |requests| - 1;
    var last := [requests[n]];
    assert requests == requests[..n] + last && last[1..] == [];
    RunConcat(db, requests[..n], last);
    assert Run(Handle(Run(db, requests[..n]), last[0]), last[1..]) == Handle(Run(db, requests[..n]), last[0]);
  }
}
