/** Download links over whole runs: whose they are, how long they live and how often they serve. */
module LinkLaws {
  import opened Base
  import opened Lifecycle
  import opened Domain
  import opened Checkout
  import opened Editing
  import opened DigitalDelivery
  import opened OrderStatus
  import opened Settlement
  import opened History
  import opened Frames

  ghost predicate HasGrant(db: Db, i: nat, k: nat) {
    i < |db.orders| && db.orders[i].delivery.Some? && k < |db.orders[i].delivery.value.grants|
  }

  function GrantOf(db: Db, i: nat, k: nat): Grant
    requires HasGrant(db, i, k)
  {
    db.orders[i].delivery.value.grants[k]
  }

  // ---- A click ----------------------------------------------------------------------------------------

  /**
   * A click is served exactly if it carries the grant's token, the order is PAID, neither delivery nor
   * link is revoked, the link has not reached its end, and a download is left; that download is then
   * counted on this grant, and nothing else changes.
   */
  lemma {:induction false} ClickServedIff(db: Db, i: nat, k: nat, token: nat, now: int)
    requires HasGrant(db, i, k)
    ensures var o, g := db.orders[i], GrantOf(db, i, k);
            Downloads(db, i, k, token, now) <==>
            && g.token == token && o.row.pay == Paid && o.delivery.value.status != Revoked && !g.revoked
            && now < g.expiresAt && g.count < g.maxDownloads
    ensures var o, t := db.orders[i], Redeem(db, i, k, token, now);
            && HasGrant(t, i, k)
            && t == db.(orders := db.orders[i := o.(delivery := t.orders[i].delivery)])
            && t.orders[i].delivery.value ==
               o.delivery.value.(grants := o.delivery.value.grants[k := GrantOf(t, i, k)])
            && GrantOf(t, i, k) ==
               GrantOf(db, i, k).(count := GrantOf(db, i, k).count + if Downloads(db, i, k, token, now) then 1 else 0)
  {
    var d := db.orders[i].delivery.value;
    assert d.grants[k := d.grants[k]] == d.grants;
    assert db.orders[i := db.orders[i]] == db.orders;
  }

  /** How many of these clicks on one link are served. */
  function Served(db: Db, i: nat, k: nat, token: nat, times: seq<int>): nat
    decreases |times|
  {
    if times == [] then 0
    else
      (if Downloads(db, i, k, token, times[0]) then 1 else 0)
      + Served(Redeem(db, i, k, token, times[0]), i, k, token, times[1..])
  }

  function Least(a: nat, b: nat): nat {
    if a <= b then a else b
  }

  /** The link works whenever its end has not come. */
  ghost predicate Works(db: Db, i: nat, k: nat, token: nat) {
    && HasGrant(db, i, k) && GrantOf(db, i, k).token == token && !GrantOf(db, i, k).revoked
    && db.orders[i].row.pay == Paid && db.orders[i].delivery.value.status != Revoked
    && GrantOf(db, i, k).count <= GrantOf(db, i, k).maxDownloads
  }

  /** Before its end, clicks on a working link are served until its downloads are used up, and then no more. */
  lemma {:induction false} ServesWhatIsLeft(db: Db, i: nat, k: nat, token: nat, times: seq<int>)
    requires Works(db, i, k, token) && forall n :: 0 <= n < |times| ==> times[n] < GrantOf(db, i, k).expiresAt
    ensures Served(db, i, k, token, times) ==
            Least(|times|, GrantOf(db, i, k).maxDownloads - GrantOf(db, i, k).count)
    decreases |times|
  {
    if times != [] {
      ClickServedIff(db, i, k, token, times[0]);
      ServesWhatIsLeft(Redeem(db, i, k, token, times[0]), i, k, token, times[1..]);
    }
  }

  /** From its end on it serves nothing. */
  lemma {:induction false} ServesNothingAfterItsEnd(db: Db, i: nat, k: nat, token: nat, times: seq<int>)
    requires HasGrant(db, i, k) && forall n :: 0 <= n < |times| ==> times[n] >= GrantOf(db, i, k).expiresAt
    ensures Served(db, i, k, token, times) == 0
    decreases |times|
  {
    if times != [] {
      ClickServedIff(db, i, k, token, times[0]);
      ServesNothingAfterItsEnd(Redeem(db, i, k, token, times[0]), i, k, token, times[1..]);
    }
  }

  // ---- An email ---------------------------------------------------------------------------------------

  /** Every link of the order is renewed: new tokens nobody has seen, no download used, a whole term to run. */
  ghost predicate Renewed(db: Db, t: Db, i: nat, now: int) {
    && i < |db.orders| && i < |t.orders| && db.orders[i].delivery.Some? && t.orders[i].delivery.Some?
    && var d, e := db.orders[i].delivery.value, t.orders[i].delivery.value;
    && e == d.(grants := e.grants) && |e.grants| == |d.grants| && t.tokens == db.tokens + |d.grants|
    && (forall k :: 0 <= k < |d.grants| ==>
          && e.grants[k] == Grant(d.grants[k].asset, e.grants[k].token, now + db.store.linkTtl, d.grants[k].maxDownloads, 0, false)
          && db.tokens <= e.grants[k].token < t.tokens)
    && (forall k, l :: 0 <= k < l < |d.grants| ==> e.grants[k].token != e.grants[l].token)
    && t == db.(tokens := t.tokens, orders := db.orders[i := db.orders[i].(delivery := t.orders[i].delivery)])
  }

  /**
   * An email renews the links of a PAID order that has an address and a delivery that is not revoked,
   * once, or again when it is resent; otherwise it changes nothing.
   */
  lemma {:induction false} PreparedRenews(db: Db, i: nat, resend: bool, now: int)
    requires i < |db.orders|
    ensures var o := db.orders[i];
            if && o.row.pay == Paid && o.email && o.delivery.Some?
               && (o.delivery.value.status == ToSend || (o.delivery.value.status == Sent && resend))
            then Renewed(db, Prepare(db, i, resend, now), i, now)
            else Prepare(db, i, resend, now) == db
  {
  }

  /** A first delivery has one unused link for each file, for a whole term, under tokens nobody has seen. */
  lemma {:induction false} DeliveredLinks(db: Db, i: nat, now: int, k: nat)
    requires i < |db.orders| && db.orders[i].delivery.None? && k < |AssetsFor(db.assets, db.orders[i].items)|
    ensures var files, t := AssetsFor(db.assets, db.orders[i].items), Deliver(db, i, now);
            && HasGrant(t, i, k) && t.tokens == db.tokens + |files|
            && t.orders[i].delivery.value.status == ToSend && t.orders[i].delivery.value.attempts == 0
            && GrantOf(t, i, k) == Grant(files[k].id, GrantOf(t, i, k).token, now + db.store.linkTtl,
                                         db.store.maxDownloads, 0, false)
            && db.tokens <= GrantOf(t, i, k).token < t.tokens
  {
  }

  /** So a link that was just mailed serves exactly its downloads until its term ends, and then nothing. */
  lemma {:induction false} MailedLinkServes(db: Db, i: nat, k: nat, now: int, times: seq<int>)
    requires HasGrant(db, i, k) && Sendable(db.orders[i], true)
    ensures var t := Prepare(db, i, true, now);
            && HasGrant(t, i, k)
            && var token, term := GrantOf(t, i, k).token, now + db.store.linkTtl;
            && ((forall n :: 0 <= n < |times| ==> times[n] < term) ==>
                  Served(t, i, k, token, times) == Least(|times|, GrantOf(db, i, k).maxDownloads))
            && ((forall n :: 0 <= n < |times| ==> times[n] >= term) ==> Served(t, i, k, token, times) == 0)
  {
    PreparedRenews(db, i, true, now);
    var t := Prepare(db, i, true, now);
    var token, term := GrantOf(t, i, k).token, now + db.store.linkTtl;
    if forall n :: 0 <= n < |times| ==> times[n] < term {
      ServesWhatIsLeft(t, i, k, token, times);
    }
    if forall n :: 0 <= n < |times| ==> times[n] >= term {
      ServesNothingAfterItsEnd(t, i, k, token, times);
    }
  }

  /** The mail counts as an attempt and, when it went out, as sent; a revoked delivery stays as it is. */
  lemma {:induction false} MailCounts(db: Db, i: nat, sent: bool)
    requires i < |db.orders|
    ensures var o := db.orders[i];
            Mail(db, i, sent) ==
            if o.delivery.None? || o.delivery.value.status == Revoked then db
            else db.(orders := db.orders[i := o.(delivery := Some(Delivery(if sent then Sent else o.delivery.value.status,
                                                                           o.delivery.value.attempts + 1,
                                                                           o.delivery.value.grants)))])
  {
    assert db.orders[i := db.orders[i]] == db.orders;
  }

  // ---- Whose link it is -------------------------------------------------------------------------------

  /** Tokens handed out so far are below the next one, and no two links share one. */
  ghost predicate TokensApart(db: Db) {
    && (forall i: nat, k: nat :: HasGrant(db, i, k) ==> GrantOf(db, i, k).token < db.tokens)
    && (forall i: nat, k: nat, j: nat, l: nat :: HasGrant(db, i, k) && HasGrant(db, j, l) && (i != j || k != l) ==>
          GrantOf(db, i, k).token != GrantOf(db, j, l).token)
  }

  /** The delivery has the grants it had, under the tokens they had; or there still is none. */
  predicate SameTokens(o: Order, p: Order) {
    && p.delivery.Some? == o.delivery.Some?
    && (o.delivery.Some? ==>
          && |p.delivery.value.grants| == |o.delivery.value.grants|
          && forall k :: 0 <= k < |o.delivery.value.grants| ==>
               p.delivery.value.grants[k].token == o.delivery.value.grants[k].token)
  }

  /** Every grant of order i has a token drawn in this step, each its own. */
  ghost predicate NewTokens(p: Order, first: nat, next: nat) {
    && p.delivery.Some?
    && (forall k :: 0 <= k < |p.delivery.value.grants| ==> first <= p.delivery.value.grants[k].token < next)
    && (forall k, l :: 0 <= k < l < |p.delivery.value.grants| ==>
          p.delivery.value.grants[k].token != p.delivery.value.grants[l].token)
  }

  /** At most the links of order i are new. */
  ghost predicate Reissues(db: Db, t: Db, i: nat) {
    && |db.orders| <= |t.orders| && db.tokens <= t.tokens
    && (forall j :: 0 <= j < |db.orders| && j != i ==> SameTokens(db.orders[j], t.orders[j]))
    && (i < |db.orders| ==>
          SameTokens(db.orders[i], t.orders[i]) || NewTokens(t.orders[i], db.tokens, t.tokens))
    && (forall j :: |db.orders| <= j < |t.orders| ==> t.orders[j].delivery.None?)
  }

  lemma {:induction false} ReissuesKeepApart(db: Db, t: Db, i: nat)
    requires TokensApart(db) && Reissues(db, t, i)
    ensures TokensApart(t)
  {
    forall j: nat, l: nat | HasGrant(t, j, l)
      ensures GrantOf(t, j, l).token < t.tokens
      ensures j != i || SameTokens(db.orders[j], t.orders[j]) ==>
                HasGrant(db, j, l) && GrantOf(db, j, l).token == GrantOf(t, j, l).token
    {
      if j != i || SameTokens(db.orders[j], t.orders[j]) {
        assert HasGrant(db, j, l);
      }
    }
  }

  lemma {:induction false} RevokeTokens(o: Order)
    ensures SameTokens(o, Revoke(o))
  {
  }

  lemma {:induction false} StatusReissues(db: Db, i: nat, target: Status, canRefund: bool, accepted: bool)
    ensures Reissues(db, UpdateStatus(db, i, target, canRefund, accepted).GetOr(db), i)
  {
    if i < |db.orders| {
      RevokeTokens(db.orders[i].(row := Moved(db.orders[i].row, db.orders[i].row, target)));
    }
  }

  lemma {:induction false} DeliverReissues(db: Db, i: nat, p: Order, now: int)
    requires i < |db.orders| && p.delivery == db.orders[i].delivery
    ensures Reissues(db, Deliver(db.(orders := db.orders[i := p]), i, now), i)
  {
  }

  lemma {:induction false} SettleReissues(db: Db, i: nat, r: Report, now: int)
    ensures Reissues(db, Settle(db, i, r, now), i)
  {
    SettleEither(db, i, r, now);
    if i < |db.orders| {
      DeliverReissues(db, i, SettledOrder(db.orders[i], r.payment), now);
    }
  }

  lemma {:induction false} ConfirmReissues(db: Db, i: nat, now: int)
    ensures Reissues(db, ConfirmManual(db, i, now).GetOr(db), i)
  {
    if i < |db.orders| {
      DeliverReissues(db, i, SettledOrder(db.orders[i], None), now);
    }
  }

  lemma {:induction false} LoseReissues(db: Db, i: nat, capture: Id, refunded: bool)
    ensures Reissues(db, Lose(db, i, capture, refunded), i)
  {
    if i < |db.orders| {
      var row := if refunded then LostToRefund(db.orders[i].row) else LostToDispute(db.orders[i].row);
      RevokeTokens(db.orders[i].(row := row));
    }
  }

  lemma {:induction false} PrepareReissues(db: Db, i: nat, resend: bool, now: int)
    ensures Reissues(db, Prepare(db, i, resend, now), i)
  {
    if i < |db.orders| {
      PreparedRenews(db, i, resend, now);
    }
  }

  lemma {:induction false} MailReissues(db: Db, i: nat, sent: bool)
    ensures Reissues(db, Mail(db, i, sent), i)
  {
    if i < |db.orders| {
      MailCounts(db, i, sent);
    }
  }

  lemma {:induction false} ClickReissues(db: Db, i: nat, k: nat, token: nat, now: int)
    ensures Reissues(db, Redeem(db, i, k, token, now), i)
  {
    if HasGrant(db, i, k) {
      ClickServedIff(db, i, k, token, now);
    }
  }

  lemma {:induction false} OpenPayPalReissues(db: Db, i: nat, reference: Id)
    ensures Reissues(db, OpenPayPal(db, i, reference).GetOr(db), i)
  {
  }

  lemma {:induction false} DeclineReissues(db: Db, i: nat, reference: Id)
    ensures Reissues(db, Decline(db, i, reference), i)
  {
  }

  lemma {:induction false} ProofReissues(db: Db, i: nat, given: bool)
    ensures Reissues(db, GiveProof(db, i, given).GetOr(db), i)
  {
  }

  lemma {:induction false} ExpireReissues(db: Db, i: nat)
    ensures Reissues(db, Expire(db, i), i)
  {
  }

  lemma {:induction false} EditReissues(db: Db, i: nat, e: Edit)
    ensures Reissues(db, UpdateDetails(db, i, e).GetOr(db), i)
  {
    if UpdateDetails(db, i, e).Some? {
      EditFrame(db, i, e);
    }
  }

  lemma {:induction false} PlaceReissues(db: Db, b: Basket, allowed: set<Method>, now: int)
    ensures Reissues(db, Create(db, b, allowed, now).GetOr(db), 0)
  {
  }

  lemma {:induction false} StepReissues(db: Db, r: Request) returns (i: nat)
    ensures Reissues(db, Handle(db, r), i)
  {
    i := if r.ChangeCatalogue? || r.PlaceOrder? then 0 else r.order;
    match r
    case ChangeStatus(_, target, canRefund, accepted) => StatusReissues(db, i, target, canRefund, accepted);
    case CorrectOrder(_, e) => EditReissues(db, i, e);
    case ReportPayment(_, report, now) => SettleReissues(db, i, report, now);
    case ConfirmZelle(_, now) => ConfirmReissues(db, i, now);
    case LosePayPal(_, capture, refunded) => LoseReissues(db, i, capture, refunded);
    case PrepareEmail(_, resend, now) => PrepareReissues(db, i, resend, now);
    case EmailDone(_, sent) => MailReissues(db, i, sent);
    case ClickLink(_, k, token, now) => ClickReissues(db, i, k, token, now);
    case StartPayPal(_, reference) => OpenPayPalReissues(db, i, reference);
    case DeclinePayPal(_, reference) => DeclineReissues(db, i, reference);
    case SendProof(_, given) => ProofReissues(db, i, given);
    case ExpireOrder(_) => ExpireReissues(db, i);
    case PlaceOrder(b, allowed, now) => PlaceReissues(db, b, allowed, now);
    case ChangeCatalogue(_) =>
  }

  lemma {:induction false} StepTokens(db: Db, r: Request)
    requires TokensApart(db)
    ensures TokensApart(Handle(db, r))
  {
    var i := StepReissues(db, r);
    ReissuesKeepApart(db, Handle(db, r), i);
  }

  lemma {:induction false} RunTokens(db: Db, requests: seq<Request>)
    requires TokensApart(db)
    ensures TokensApart(Run(db, requests))
    decreases |requests|
  {
    if requests != [] {
      StepTokens(db, requests[0]);
      RunTokens(Handle(db, requests[0]), requests[1..]);
    }
  }

  /** Over every run a token opens one link of one order and no other, ever after. */
  lemma {:induction false} OneLinkPerToken(db: Db, requests: seq<Request>, i: nat, k: nat, j: nat, l: nat, token: nat,
                                           now: int, later: int)
    requires db.orders == []
    requires Downloads(Run(db, requests), i, k, token, now) && Downloads(Run(db, requests), j, l, token, later)
    ensures i == j && k == l
  {
    RunTokens(db, requests);
    assert HasGrant(Run(db, requests), i, k) && HasGrant(Run(db, requests), j, l);
  }
}
