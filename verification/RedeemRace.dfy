/**
 * One download link under any interleaving of clicks, email preparations and a revocation. A click is
 * split at its read and its conditional UPDATE, a preparation at its read and its write.
 */
module RedeemRace {
  import opened Base

  datatype Job =
    | Click(token: nat)
    | ClickRead
    | Mail(resend: bool)
    | MailRead
    | RevokeAll
    | Served
    | Over

  /**
   * `token` is the current one, 0 the placeholder nobody was told; `minted` counts preparations that
   * wrote, `served` successful downloads, `late` those served once the delivery was revoked, and
   * `raised` says a preparation wrote after the revocation.
   */
  datatype State = State(
    count: nat,
    max: nat,
    token: nat,
    expiresAt: int,
    revoked: bool,
    off: bool,
    sent: bool,
    paid: bool,
    jobs: map<Id, Job>,
    minted: nat,
    served: nat,
    late: nat,
    raised: bool
  )

  datatype Event =
    | Arrive(id: Id, job: Job)
    | Step(id: Id, now: int, ttl: nat)
    | EmailSent
    | PaymentBecomes(paid: bool)

  predicate Arrival(s: State, job: Job) {
    || (job.Click? && 0 < job.token <= s.minted)
    || job.Mail? || job.RevokeAll?
  }

  function Put(s: State, id: Id, job: Job): State {
    s.(jobs := s.jobs[id := job])
  }

  predicate Dead(s: State, now: int) {
    s.revoked || s.expiresAt <= now || s.count >= s.max
  }

  /** What a handler's next step leaves it as. */
  function After(s: State, job: Job, now: int): Job {
    match job
    case Click(token) => if token != s.token || Dead(s, now) || s.off || !s.paid then Over else ClickRead
    case ClickRead => if Dead(s, now) then Over else Served
    case Mail(resend) => if s.off || (s.sent && !resend) || !s.paid then Over else MailRead
    case MailRead => Over
    case RevokeAll => Over
    case Served => Served
    case Over => Over
  }

  /** What it writes: the click's count, the preparation's new token, the revocation. */
  function Written(s: State, job: Job, now: int, ttl: nat): State {
    match job
    case ClickRead =>
      if Dead(s, now) then s
      else s.(count := s.count + 1, served := s.served + 1, late := s.late + if s.off then 1 else 0)
    case MailRead =>
      s.(token := s.minted + 1, minted := s.minted + 1, expiresAt := now + ttl, count := 0,
         revoked := false, raised := s.raised || s.off)
    case RevokeAll => if s.off then s else s.(off := true, revoked := true)
    case _ => s
  }

  function Advance(s: State, id: Id, now: int, ttl: nat): State
    requires id in s.jobs
  {
    Put(Written(s, s.jobs[id], now, ttl), id, After(s, s.jobs[id], now))
  }

  function Next(s: State, e: Event): State {
    match e
    case Arrive(id, job) => if id !in s.jobs && Arrival(s, job) then Put(s, id, job) else s
    case Step(id, now, ttl) => if id in s.jobs then Advance(s, id, now, ttl) else s
    case EmailSent => if s.off then s else s.(sent := true)
    case PaymentBecomes(paid) => s.(paid := paid)
  }

  function Run(s: State, events: seq<Event>): State
    decreases |events|
  {
    if events == [] then s else Run(Next(s, events[0]), events[1..])
  }

  /** A delivery just created: an unused link with its placeholder token. */
  ghost predicate Fresh(s: State) {
    && s.count == 0 && s.token == 0 && !s.revoked && !s.off && s.jobs == map[]
    && s.minted == 0 && s.served == 0 && s.late == 0 && !s.raised
  }

  /** The downloads that many sets of links allow. */
  function Allowance(max: nat, sets: nat): nat {
    if sets == 0 then 0 else max + Allowance(max, sets - 1)
  }

  lemma {:induction false} AllowanceIsProduct(max: nat, sets: nat)
    ensures Allowance(max, sets) == max * sets
  {
    if sets > 0 {
      AllowanceIsProduct(max, sets - 1);
      assert max * sets == max * (sets - 1) + max;
    }
  }

  /** Downloads so far fit in the allowance of earlier links plus the current counter. */
  ghost predicate Within(s: State) {
    && s.count <= s.max
    && (s.minted == 0 ==> s.served == 0 && s.count == 0)
    && (s.minted > 0 ==> s.served + s.max <= Allowance(s.max, s.minted) + s.count)
  }

  ghost predicate JobOk(s: State, job: Job) {
    (job.Click? ==> job.token > 0) && (job.ClickRead? ==> s.minted > 0)
  }

  ghost predicate Inv(s: State) {
    && Within(s)
    && s.token == s.minted
    && (forall id :: id in s.jobs ==> JobOk(s, s.jobs[id]))
    && (s.off && !s.raised ==> s.revoked)
    && (s.late > 0 ==> s.raised)
  }

  lemma {:induction false} StepCounts(s: State, id: Id, now: int, ttl: nat)
    requires Within(s) && id in s.jobs && JobOk(s, s.jobs[id])
    ensures Within(Advance(s, id, now, ttl))
  {
  }

  lemma {:induction false} StepFlags(s: State, id: Id, now: int, ttl: nat)
    requires s.token == s.minted && (s.off && !s.raised ==> s.revoked) && (s.late > 0 ==> s.raised) && id in s.jobs
    ensures var t := Advance(s, id, now, ttl);
            && t.token == t.minted && t.max == s.max && s.minted <= t.minted
            && (t.off && !t.raised ==> t.revoked)
            && (t.late > 0 ==> t.raised)
  {
  }

  lemma {:induction false} StepJobs(s: State, id: Id, now: int, ttl: nat)
    requires s.token == s.minted && id in s.jobs && JobOk(s, s.jobs[id])
    ensures var t := Advance(s, id, now, ttl);
            && id in t.jobs && t.jobs == s.jobs[id := t.jobs[id]]
            && JobOk(t, t.jobs[id])
  {
  }

  lemma {:induction false} AdvanceInv(s: State, t: State, id: Id)
    requires Inv(s) && id in s.jobs && Within(t)
    requires t.token == t.minted && s.minted <= t.minted && (t.off && !t.raised ==> t.revoked)
    requires t.late > 0 ==> t.raised
    requires id in t.jobs && t.jobs == s.jobs[id := t.jobs[id]] && JobOk(t, t.jobs[id])
    ensures Inv(t)
  {
    forall other | other in t.jobs ensures JobOk(t, t.jobs[other]) {
      if other in s.jobs {
        assert JobOk(s, s.jobs[other]);
      }
    }
  }

  lemma {:induction false} StepInv(s: State, e: Event)
    requires Inv(s)
    ensures Inv(Next(s, e)) && Next(s, e).max == s.max
  {
    match e
    case Step(id, now, ttl) =>
      if id in s.jobs {
        StepCounts(s, id, now, ttl);
        StepFlags(s, id, now, ttl);
        StepJobs(s, id, now, ttl);
        AdvanceInv(s, Advance(s, id, now, ttl), id);
      }
    case Arrive(id, job) =>
      forall other | other in s.jobs ensures JobOk(Next(s, e), s.jobs[other]) {
        assert JobOk(s, s.jobs[other]);
      }
    case _ =>
  }

  lemma {:induction false} RunInv(s: State, events: seq<Event>)
    requires Inv(s)
    ensures Inv(Run(s, events)) && Run(s, events).max == s.max
    decreases |events|
  {
    if events != [] {
      StepInv(s, events[0]);
      RunInv(Next(s, events[0]), events[1..]);
    }
  }

  /** The counter never passes its limit, and all downloads together stay within the limit per set of links mailed. */
  lemma {:induction false} DownloadsBounded(s: State, events: seq<Event>)
    requires Fresh(s)
    ensures var t := Run(s, events); t.count <= s.max && t.served <= s.max * t.minted
  {
    RunInv(s, events);
    AllowanceIsProduct(s.max, Run(s, events).minted);
  }

  /** A download after the revocation can only follow a preparation that read before it and wrote after it. */
  lemma {:induction false} LateOnlyIfRaised(s: State, events: seq<Event>)
    requires Fresh(s)
    ensures Run(s, events).late > 0 ==> Run(s, events).raised
  {
    RunInv(s, events);
  }

  predicate MailInFlight(s: State) {
    exists id :: id in s.jobs && s.jobs[id].MailRead?
  }

  predicate ClickInFlight(s: State) {
    exists id :: id in s.jobs && s.jobs[id].ClickRead?
  }

  /** The link itself is dead whatever the time: revoked, or all its downloads used. */
  predicate Spent(s: State) {
    s.revoked || s.count >= s.max
  }

  /**
   * Revoked, with no click caught between its read and its write; or with a dead link, and no
   * preparation caught there to raise it.
   */
  predicate Harmless(s: State) {
    s.off && (!ClickInFlight(s) || s.max == 0 || (Spent(s) && !MailInFlight(s)))
  }

  lemma {:induction false} HarmlessStep(s: State, e: Event)
    requires Harmless(s)
    ensures Harmless(Next(s, e)) && Next(s, e).served == s.served
  {
    var t := Next(s, e);
    forall id | id in t.jobs && t.jobs[id].MailRead? ensures MailInFlight(s) {
      assert id in s.jobs && s.jobs[id].MailRead?;
    }
    forall id | id in t.jobs && t.jobs[id].ClickRead? ensures ClickInFlight(s) {
      assert id in s.jobs && s.jobs[id].ClickRead?;
    }
  }

  /** Then no link of the delivery works again, whatever arrives, is mailed or is paid afterwards. */
  lemma {:induction false} RevocationHolds(s: State, events: seq<Event>)
    requires Harmless(s)
    ensures Run(s, events).served == s.served
    decreases |events|
  {
    if events != [] {
      HarmlessStep(s, events[0]);
      RevocationHolds(Next(s, events[0]), events[1..]);
    }
  }

  /**
   * After a revocation some continuation still serves a file exactly when a click was caught between
   * its read and its write, and the link is alive (a preparation has raised it already) or a
   * preparation was caught there too.
   */
  lemma {:induction false} LateDownloadIff(s: State)
    requires s.off
    ensures (exists events :: Run(s, events).served > s.served)
            <==> ClickInFlight(s) && s.max > 0 && (MailInFlight(s) || !Spent(s))
  {
    if Harmless(s) {
      forall events ensures Run(s, events).served == s.served {
        RevocationHolds(s, events);
      }
    } else {
      var click :| click in s.jobs && s.jobs[click].ClickRead?;
      if mail :| mail in s.jobs && s.jobs[mail].MailRead? {
        BothLand(s, mail, click);
        assert Run(s, [Step(mail, 0, 1), Step(click, 0, 1)]).served > s.served;
      } else {
        ClickLands(s, click);
        assert Run(s, [Step(click, s.expiresAt - 1, 1)]).served > s.served;
      }
    }
  }

  lemma {:induction false} ClickLands(s: State, click: Id)
    requires click in s.jobs && s.jobs[click].ClickRead? && !Spent(s)
    ensures Run(s, [Step(click, s.expiresAt - 1, 1)]).served == s.served + 1
  {
    var es := [Step(click, s.expiresAt - 1, 1)];
    assert es[1..] == [] && Run(s, es) == Run(Next(s, es[0]), []);
  }

  lemma {:induction false} BothLand(s: State, mail: Id, click: Id)
    requires mail in s.jobs && s.jobs[mail].MailRead? && click in s.jobs && s.jobs[click].ClickRead? && s.max > 0
    ensures Run(s, [Step(mail, 0, 1), Step(click, 0, 1)]).served == s.served + 1
  {
    var es := [Step(mail, 0, 1), Step(click, 0, 1)];
    var t := Next(s, Step(mail, 0, 1));
    assert es[1..] == [Step(click, 0, 1)] && es[1..][1..] == [];
    assert t.jobs[click].ClickRead? && !Dead(t, 0);
    assert Run(s, es) == Run(t, es[1..]) == Run(Next(t, Step(click, 0, 1)), []);
  }

  // ---- The race that does let one through -------------------------------------------------------------

  /** A resend and a click each read the live delivery; it is revoked; the resend writes; the click's UPDATE lands. */
  function RaisingRun(): seq<Event> {
    [Arrive(0, Mail(true)), Step(0, 0, 9), Arrive(1, Click(1)), Step(1, 0, 9)]
    + [Arrive(2, RevokeAll), Step(2, 0, 9), Step(0, 0, 9), Step(1, 0, 9)]
  }

  lemma {:induction false} RunFour(s: State, a: Event, b: Event, c: Event, d: Event, rest: seq<Event>)
    ensures Run(s, [a, b, c, d] + rest) == Run(Next(Next(Next(Next(s, a), b), c), d), rest)
  {
    var abcd, bcd, cd := [a, b, c, d] + rest, [b, c, d] + rest, [c, d] + rest;
    assert abcd[1..] == bcd && bcd[1..] == cd && cd[1..] == [d] + rest && ([d] + rest)[1..] == rest;
    var s1 := Next(s, a);
    var s2 := Next(s1, b);
    var s3 := Next(s2, c);
    assert Run(s, abcd) == Run(s1, bcd);
    assert Run(s1, bcd) == Run(s2, cd);
    assert Run(s2, cd) == Run(s3, [d] + rest);
  }

  lemma {:induction false} BothRead(s: State)
    requires s.jobs == map[] && !s.off && s.paid && s.token == 1 && s.minted == 1 && !Dead(s, 0)
    ensures Next(Next(Next(Next(s, Arrive(0, Mail(true))), Step(0, 0, 9)), Arrive(1, Click(1))), Step(1, 0, 9))
            == s.(jobs := map[0 := MailRead, 1 := ClickRead])
  {
    var mailing := Next(Next(s, Arrive(0, Mail(true))), Step(0, 0, 9));
    assert mailing.jobs == map[0 := MailRead];
    var clicking := Next(mailing, Arrive(1, Click(1)));
    assert clicking.jobs == map[0 := MailRead, 1 := Click(1)];
  }

  /** From any live, mailed link of a paid order that run serves a file of a revoked delivery. */
  lemma {:induction false} StaleResendRaisesLink(s: State)
    requires s.jobs == map[] && !s.off && s.paid && s.token == 1 && s.minted == 1 && !Dead(s, 0)
    ensures var t := Run(s, RaisingRun()); t.off && t.late == s.late + 1 && t.raised
  {
    BothRead(s);
    var read := s.(jobs := map[0 := MailRead, 1 := ClickRead]);
    var last := [Arrive(2, RevokeAll), Step(2, 0, 9), Step(0, 0, 9), Step(1, 0, 9)];
    RunFour(s, Arrive(0, Mail(true)), Step(0, 0, 9), Arrive(1, Click(1)), Step(1, 0, 9), last);
    assert last == last + [];
    RunFour(read, Arrive(2, RevokeAll), Step(2, 0, 9), Step(0, 0, 9), Step(1, 0, 9), []);
    var revoked := Next(Next(read, Arrive(2, RevokeAll)), Step(2, 0, 9));
    assert revoked == read.(off := true, revoked := true, jobs := map[0 := MailRead, 1 := ClickRead, 2 := Over]);
    var raised := Next(revoked, Step(0, 0, 9));
    assert raised.jobs[1] == ClickRead && !Dead(raised, 0);
  }
}
