/** When each notice goes out and when paid limits end, in days from the end of what was paid for. */
module NoticeLaws {
  import opened Base
  import opened Notices

  /** Stripe will charge the card again when the period ends. */
  predicate Renews(r: Sub) {
    r.card && r.stripe.Some? && !r.cancelling
  }

  /** The days, in milliseconds, left before the paid period ends; none are counted for a plan that does not end. */
  predicate Window(n: Notice, left: int) {
    match n
    case D7 => 86_400_000 < left <= 604_800_000
    case D1 => 0 < left <= 86_400_000
    case D0 => -604_800_000 < left <= 0
    case Downgraded => left <= -604_800_000
  }

  /**
   * Of a paid plan that ends: a first notice in its last week, a second in its last day, unless its
   * card will be charged again; one in the week after it, and the move to the free plan after that.
   */
  lemma {:induction false} DueInItsWindow(r: Sub, now: int, n: Notice)
    ensures Due(r, now) == Some(n) <==>
            && r.plan.paid && r.expiresAt.Some? && Window(n, r.expiresAt.value - now)
            && (Renews(r) ==> n == D0 || n == Downgraded)
    ensures Due(r, now).Some? ==> Candidate(r, now)
  {
  }

  /** Paid limits last until a week after the end of a paid plan, and for good if it has none. */
  lemma {:induction false} LimitsEndAWeekLater(r: Sub, now: int)
    ensures PaidLimits(r, now) <==> r.plan.paid && (r.expiresAt.Some? ==> now < r.expiresAt.value + 604_800_000)
  {
  }

  // ---- What handling a row does -----------------------------------------------------------------------

  /** The downgraded row: on the free plan without an end, or still on its lapsed one if there is none. */
  function OnFree(r: Sub, free: Option<Id>): Sub {
    Sub(if free.Some? then Plan(free.value, false) else r.plan, if free.Some? then None else r.expiresAt,
        false, None, false, r.sent)
  }

  /**
   * A handled row mails the notice due, once; only the downgrade writes more than that it was sent. A
   * failure mails nothing and forgets the notice, so that it comes up again.
   */
  lemma {:induction false} HandledMails(r: Sub, now: int, outcome: Outcome, free: Option<Id>)
    ensures var due, h := Due(r, now), Handled(r, now, outcome, free);
            if due.None? || due.value in r.sent then h == (r, None)
            else
              var was := if due.value == Downgraded && outcome != FailedBefore then OnFree(r, free) else r;
              && (outcome == Done ==> h == (was.(sent := r.sent + [due.value]), due))
              && (outcome != Done ==> h.1 == None && h.0 == was.(sent := h.0.sent)
                                      && forall n :: n in h.0.sent <==> n in r.sent)
  {
    if Due(r, now).Some? {
      DueInItsWindow(r, now, Due(r, now).value);
    }
  }

  /** A payment starts a period over, reminders included; what Stripe says of a subscription reaches only its own row. */
  lemma {:induction false} NewsWrites(s: State, plan: Plan, expiresAt: Option<int>, card: bool, stripe: Option<Id>,
                                      cancelling: bool, id: Id)
    ensures Step(s, Activate(plan, expiresAt, card, stripe, cancelling)).row ==
            Sub(plan, expiresAt, card, stripe, cancelling, [])
    ensures Step(s, PortalChange(id, cancelling)).row ==
            if s.row.stripe == Some(id) then s.row.(cancelling := cancelling) else s.row
    ensures Step(s, StripeEnded(id)).row ==
            if s.row.stripe == Some(id)
            then Sub(s.row.plan, s.row.expiresAt, false, None, false, s.row.sent) else s.row
  {
  }

  // ---- Over every run ---------------------------------------------------------------------------------

  predicate MailFits(m: Mail) {
    Window(m.notice, m.expiresAt - m.at)
  }

  ghost predicate Fits(s: State) {
    && (forall m :: m in s.log ==> MailFits(m))
    && (s.job.Claimed? ==>
          && s.job.seen.expiresAt.Some? && Window(s.job.notice, s.job.seen.expiresAt.value - s.job.at)
          && (Renews(s.job.seen) ==> s.job.notice == D0 || s.job.notice == Downgraded))
  }

  lemma {:induction false} StepFits(s: State, e: Event)
    requires Fits(s)
    ensures Fits(Step(s, e))
  {
    var t := Step(s, e);
    if e.Claim? && s.job.Read? {
      var due := Due(s.job.seen, s.job.at);
      if due.Some? {
        DueInItsWindow(s.job.seen, s.job.at, due.value);
      }
    } else if e.Finish? && s.job.Claimed? {
      var mail := Mail(s.job.notice, s.job.epoch, s.job.seen.expiresAt.GetOr(0), s.job.at);
      assert forall m :: m in t.log ==> m in s.log || m == mail;
    }
  }

  /**
   * Whatever lands in between: every notice ever mailed was claimed in its own window of the period it
   * speaks of, and a plan its sweep read as renewing is never reminded to pay.
   */
  lemma {:induction false} MailsFit(row: Sub, clock: int, events: seq<Event>)
    ensures var t := Run(State(row, Idle, clock, 0, []), events);
            && (forall m :: m in t.log ==> Window(m.notice, m.expiresAt - m.at))
            && (t.job.Claimed? && Renews(t.job.seen) ==> t.job.notice == D0 || t.job.notice == Downgraded)
  {
    RunFits(State(row, Idle, clock, 0, []), events);
  }

  lemma {:induction false} RunFits(s: State, events: seq<Event>)
    requires Fits(s)
    ensures Fits(Run(s, events))
    decreases |events|
  {
    if events != [] {
      StepFits(s, events[0]);
      RunFits(Step(s, events[0]), events[1..]);
    }
  }
}
