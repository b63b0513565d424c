/** The same for one download link: uninterrupted clicks, preparations and revocations do as in the tables. */
module RedeemSerial {
  import opened Base
  import opened Lifecycle
  import opened Domain
  import opened DigitalDelivery
  import opened History
  import opened LinkLaws
  import RedeemRace

  /** The request arrives and takes its two steps at one instant. */
  function Alone(s: RedeemRace.State, id: Id, job: RedeemRace.Job, now: int, ttl: nat): RedeemRace.State {
    var go := RedeemRace.Step(id, now, ttl);
    RedeemRace.Next(RedeemRace.Next(RedeemRace.Next(s, RedeemRace.Arrive(id, job)), go), go)
  }

  /** The state shows grant k of order i as the tables have it. */
  ghost predicate Shows(s: RedeemRace.State, db: Db, i: nat, k: nat) {
    && HasGrant(db, i, k)
    && var o, g := db.orders[i], GrantOf(db, i, k);
    && s.count == g.count && s.max == g.maxDownloads && s.expiresAt == g.expiresAt && s.revoked == g.revoked
    && s.off == (o.delivery.value.status == Revoked) && (!s.off ==> s.sent == (o.delivery.value.status == Sent))
    && s.paid == (o.row.pay == Paid)
  }

  /** A click with a token somebody was told, which is or is not the current one. */
  lemma {:induction false} ClickAlone(s: RedeemRace.State, db: Db, i: nat, k: nat, id: Id, told: nat, token: nat, now: int,
                                      ttl: nat)
    requires Shows(s, db, i, k) && id !in s.jobs && 0 < told <= s.minted
    requires told == s.token <==> token == GrantOf(db, i, k).token
    ensures var t := Alone(s, id, RedeemRace.Click(told), now, ttl);
            && Shows(t, Redeem(db, i, k, token, now), i, k)
            && t.served == (s.served + if Downloads(db, i, k, token, now) then 1 else 0)
            && id in t.jobs && t.jobs[id] == if Downloads(db, i, k, token, now) then RedeemRace.Served else RedeemRace.Over
  {
    ClickServedIff(db, i, k, token, now);
    var here := RedeemRace.Next(s, RedeemRace.Arrive(id, RedeemRace.Click(told)));
    var read := RedeemRace.Next(here, RedeemRace.Step(id, now, ttl));
    assert id in read.jobs && read == s.(jobs := read.jobs);
    assert read.jobs[id] == if Downloads(db, i, k, token, now) then RedeemRace.ClickRead else RedeemRace.Over;
  }

  /** An email to an order with an address. */
  lemma {:induction false} MailAlone(s: RedeemRace.State, db: Db, i: nat, k: nat, id: Id, resend: bool, now: int)
    requires Shows(s, db, i, k) && id !in s.jobs && db.orders[i].email
    ensures var t := Alone(s, id, RedeemRace.Mail(resend), now, db.store.linkTtl);
            && Shows(t, Prepare(db, i, resend, now), i, k)
            && (t.token != s.token ==> t.token > s.minted && GrantOf(Prepare(db, i, resend, now), i, k).token >= db.tokens)
  {
    PreparedRenews(db, i, resend, now);
    var here := RedeemRace.Next(s, RedeemRace.Arrive(id, RedeemRace.Mail(resend)));
    var read := RedeemRace.Next(here, RedeemRace.Step(id, now, db.store.linkTtl));
    assert id in read.jobs && read == s.(jobs := read.jobs);
    assert read.jobs[id] == if Sendable(db.orders[i], resend) then RedeemRace.MailRead else RedeemRace.Over;
  }

  /** The mail going out, and the payment's status changing, are single steps in both models. */
  lemma {:induction false} NewsAlone(s: RedeemRace.State, db: Db, i: nat, k: nat, pay: Payment)
    requires Shows(s, db, i, k)
    ensures Shows(RedeemRace.Next(s, RedeemRace.EmailSent), Mail(db, i, true), i, k)
    ensures var o := db.orders[i];
            Shows(RedeemRace.Next(s, RedeemRace.PaymentBecomes(pay == Paid)),
                  db.(orders := db.orders[i := o.(row := o.row.(pay := pay))]), i, k)
  {
    MailCounts(db, i, true);
  }

  /** A revocation. */
  lemma {:induction false} RevocationAlone(s: RedeemRace.State, db: Db, i: nat, k: nat, id: Id, now: int, ttl: nat)
    requires Shows(s, db, i, k) && id !in s.jobs
    ensures Shows(Alone(s, id, RedeemRace.RevokeAll, now, ttl), db.(orders := db.orders[i := Revoke(db.orders[i])]), i, k)
  {
    var here := RedeemRace.Next(s, RedeemRace.Arrive(id, RedeemRace.RevokeAll));
    var done := RedeemRace.Next(here, RedeemRace.Step(id, now, ttl));
    assert id in done.jobs && done.jobs[id] == RedeemRace.Over;
  }
}
