/**
 * The end of a paid plan: reminders claimed before they are mailed, the grace period, and the move to
 * Free. One sweep runs at a time; payments and portal changes may land between any two of its steps.
 */
module Notices {
  import opened Base

  const DAY := 24 * 60 * 60 * 1000
  const GRACE := 7 * DAY

  datatype Notice = D7 | D1 | D0 | Downgraded

  datatype Plan = Plan(id: Id, paid: bool)

  datatype Sub = Sub(plan: Plan, expiresAt: Option<int>, card: bool, stripe: Option<Id>, cancelling: bool, sent: seq<Notice>)

  predicate Lapsed(r: Sub, now: int) {
    r.plan.paid && r.expiresAt.Some? && now >= r.expiresAt.value + GRACE
  }

  /** A card plan Stripe charges again by itself. */
  predicate AutoRenews(r: Sub) {
    r.card && r.stripe.Some? && !r.cancelling
  }

  function Due(r: Sub, now: int): Option<Notice> {
    if !r.plan.paid || r.expiresAt.None? then None
    else if Lapsed(r, now) then Some(Downgraded)
    else if now >= r.expiresAt.value then Some(D0)
    else if AutoRenews(r) then None
    else if r.expiresAt.value - now <= DAY then Some(D1)
    else if r.expiresAt.value - now <= 7 * DAY then Some(D7)
    else None
  }

  predicate Candidate(r: Sub, now: int) {
    r.expiresAt.Some? && r.expiresAt.value <= now + 7 * DAY && r.plan.paid
  }

  /** The store gets its paid plan's limits; otherwise a free plan's or the fallback's. */
  predicate PaidLimits(r: Sub, now: int) {
    r.plan.paid && !Lapsed(r, now)
  }

  function Claiming(r: Sub, n: Notice): Sub {
    r.(sent := r.sent + [n])
  }

  function Without(sent: seq<Notice>, n: Notice): (r: seq<Notice>)
    ensures forall m :: m in r <==> m in sent && m != n
  {
    if sent == [] then []
    else if sent[0] == n then Without(sent[1..], n)
    else [sent[0]] + Without(sent[1..], n)
  }

  function Releasing(r: Sub, n: Notice): Sub {
    r.(sent := Without(r.sent, n))
  }

  /** Written by row id, whatever the row has become; without a free plan the lapsed plan stays. */
  function ToFree(r: Sub, free: Option<Id>): Sub {
    var r' := r.(card := false, stripe := None, cancelling := false);
    if free.Some? then r'.(plan := Plan(free.value, false), expiresAt := None) else r'
  }

  /** How acting on a claimed notice ends: a failure may come before or after the row was downgraded. */
  datatype Outcome = Done | FailedBefore | FailedAfter

  function Acted(r: Sub, n: Notice, outcome: Outcome, free: Option<Id>): Sub {
    var r' := if n == Downgraded && outcome != FailedBefore then ToFree(r, free) else r;
    if outcome == Done then r' else Releasing(r', n)
  }

  // ---- Step by step ---------------------------------------------------------------------------------

  datatype Job =
    | Idle
    | Read(seen: Sub, at: int)
    | Claimed(seen: Sub, notice: Notice, at: int, epoch: nat)

  /** A mail sent on a claim made at `at`, in the `epoch`-th paid period. */
  datatype Mail = Mail(notice: Notice, epoch: nat, expiresAt: int, at: int)

  /** `epoch` counts activations; `clock` is the moment of the last sweep. */
  datatype State = State(row: Sub, job: Job, clock: int, epoch: nat, log: seq<Mail>)

  datatype Event =
    | Sweep(after: nat)
    | Claim
    | Finish(outcome: Outcome, free: Option<Id>)
    | Activate(plan: Plan, expiresAt: Option<int>, card: bool, stripe: Option<Id>, cancelling: bool)
    | PortalChange(id: Id, cancelling: bool)
    | StripeEnded(id: Id)

  /** The claim is conditional: same expiry as when the sweep read the row, and not claimed yet. */
  predicate Claimable(r: Sub, seen: Sub, n: Notice) {
    r.expiresAt == seen.expiresAt && n !in r.sent
  }

  function Step(s: State, e: Event): State {
    match e
    case Sweep(after) =>
      var now := s.clock + after;
      if !s.job.Idle? then s
      else s.(clock := now, job := if Candidate(s.row, now) then Read(s.row, now) else Idle)
    case Claim =>
      if !s.job.Read? then s
      else
        var due := Due(s.job.seen, s.job.at);
        if due.None? || !Claimable(s.row, s.job.seen, due.value) then s.(job := Idle)
        else s.(row := Claiming(s.row, due.value), job := Claimed(s.job.seen, due.value, s.job.at, s.epoch))
    case Finish(outcome, free) =>
      if !s.job.Claimed? then s
      else
        var mail := Mail(s.job.notice, s.job.epoch, s.job.seen.expiresAt.GetOr(0), s.job.at);
        s.(row := Acted(s.row, s.job.notice, outcome, free), job := Idle,
           log := s.log + if outcome == Done then [mail] else [])
    case Activate(plan, expiresAt, card, stripe, cancelling) =>
      s.(row := Sub(plan, expiresAt, card, stripe, cancelling, []), epoch := s.epoch + 1)
    case PortalChange(id, cancelling) =>
      if s.row.stripe == Some(id) then s.(row := s.row.(cancelling := cancelling)) else s
    case StripeEnded(id) =>
      if s.row.stripe == Some(id) then s.(row := s.row.(stripe := None, card := false, cancelling := false)) else s
  }

  function Run(s: State, events: seq<Event>): State
    decreases |events|
  {
    if events == [] then s else Run(Step(s, events[0]), events[1..])
  }

  // ---- As it runs -----------------------------------------------------------------------------------

  /** One subscription handled with nothing in between: the row it leaves and the notice mailed. */
  function Handled(r: Sub, now: int, outcome: Outcome, free: Option<Id>): (Sub, Option<Notice>) {
    var due := Due(r, now);
    if !Candidate(r, now) || due.None? || due.value in r.sent then (r, None)
    else (Acted(Claiming(r, due.value), due.value, outcome, free), if outcome == Done then due else None)
  }

  /** The mails a whole sweep sends, in row order. */
  function Mailed(rows: seq<Sub>, now: int, outcomes: seq<Outcome>, free: Option<Id>): seq<(nat, Notice)>
    requires |outcomes| == |rows|
  {
    if rows == [] then []
    else
      var n := |rows| - 1;
      var last := Handled(rows[n], now, outcomes[n], free).1;
      Mailed(rows[..n], now, outcomes[..n], free) + if last.Some? then [(n, last.value)] else []
  }

  lemma {:induction false} MailedSnoc(rows: seq<Sub>, now: int, outcomes: seq<Outcome>, free: Option<Id>, i: nat)
    requires |outcomes| == |rows| && i < |rows|
    ensures var last := Handled(rows[i], now, outcomes[i], free).1;
            Mailed(rows[..i + 1], now, outcomes[..i + 1], free)
            == Mailed(rows[..i], now, outcomes[..i], free) + if last.Some? then [(i, last.value)] else []
  {
    assert rows[..i + 1][..i] == rows[..i] && outcomes[..i + 1][..i] == outcomes[..i];
  }

  /** The first `i` rows handled, the others as they were. */
  ghost predicate PartlySwept(was: seq<Sub>, rows: seq<Sub>, i: nat, now: int, outcomes: seq<Outcome>, free: Option<Id>)
    requires |outcomes| == |was| && i <= |was|
  {
    && |rows| == |was|
    && (forall k :: 0 <= k < i ==> rows[k] == Handled(was[k], now, outcomes[k], free).0)
    && (forall k :: i <= k < |was| ==> rows[k] == was[k])
  }

  lemma {:induction false} SweptOne(was: seq<Sub>, rows: seq<Sub>, i: nat, now: int, outcomes: seq<Outcome>,
                                    free: Option<Id>)
    requires |outcomes| == |was| && i < |was| && PartlySwept(was, rows, i, now, outcomes, free)
    ensures PartlySwept(was, rows[i := Handled(was[i], now, outcomes[i], free).0], i + 1, now, outcomes, free)
    ensures !Candidate(was[i], now) ==> rows == rows[i := Handled(was[i], now, outcomes[i], free).0]
  {
  }

  class LifecycleService {
    var rows: seq<Sub>
    var mails: seq<(nat, Notice)>

    constructor (rows: seq<Sub>)
      ensures this.rows == rows && mails == []
    {
      this.rows, mails := rows, [];
    }

    method Downgrade(i: nat, free: Option<Id>)
      requires i < |rows|
      modifies this`rows
      ensures rows == old(rows)[i := ToFree(old(rows)[i], free)]
    {
      if free.Some? {
        rows := rows[i := rows[i].(plan := Plan(free.value, false), expiresAt := None)];
      }
      rows := rows[i := rows[i].(card := false, stripe := None, cancelling := false)];
    }

    method ReleaseNotice(i: nat, n: Notice)
      requires i < |rows|
      modifies this`rows
      ensures rows == old(rows)[i := Releasing(old(rows)[i], n)]
    {
      var kept: seq<Notice> := [];
      var sent := rows[i].sent;
      for k := 0 to |sent|
        invariant rows == old(rows)
        invariant kept + Without(sent[k..], n) == Without(sent, n)
      {
        if sent[k] != n {
          kept := kept + [sent[k]];
        }
      }
      assert sent[|sent|..] == [] && kept == Without(sent, n);
      rows := rows[i := rows[i].(sent := kept)];
    }

    /** Claims the notice before acting on it, and releases the claim when acting fails. */
    method Handle(i: nat, now: int, outcome: Outcome, free: Option<Id>) returns (handled: bool)
      requires i < |rows| && Candidate(rows[i], now)
      modifies this
      ensures rows == old(rows)[i := Handled(old(rows)[i], now, outcome, free).0]
      ensures handled == Handled(old(rows)[i], now, outcome, free).1.Some?
      ensures mails == old(mails) + if handled then [(i, Handled(old(rows)[i], now, outcome, free).1.value)] else []
    {
      var notice := Due(rows[i], now);
      if notice.None? || notice.value in rows[i].sent {
        return false;
      }
      var n := notice.value;
      rows := rows[i := Claiming(rows[i], n)];
      if n == Downgraded && outcome != FailedBefore {
        Downgrade(i, free);
      }
      if outcome != Done {
        ReleaseNotice(i, n);
        return false;
      }
      mails := mails + [(i, n)];
      return true;
    }

    /** One subscription failing does not keep the sweep from the others. */
    method Sweep(now: int, outcomes: seq<Outcome>, free: Option<Id>) returns (handled: nat)
      requires |outcomes| == |rows|
      modifies this
      ensures |rows| == |old(rows)|
      ensures forall i :: 0 <= i < |rows| ==> rows[i] == Handled(old(rows)[i], now, outcomes[i], free).0
      ensures mails == old(mails) + Mailed(old(rows), now, outcomes, free)
      ensures handled == |Mailed(old(rows), now, outcomes, free)|
    {
      handled := 0;
      ghost var was := rows;
      for i := 0 to |rows|
        invariant |rows| == |was| && PartlySwept(was, rows, i, now, outcomes, free)
        invariant mails == old(mails) + Mailed(was[..i], now, outcomes[..i], free)
        invariant handled == |Mailed(was[..i], now, outcomes[..i], free)|
      {
        MailedSnoc(was, now, outcomes, free, i);
        SweptOne(was, rows, i, now, outcomes, free);
        if Candidate(rows[i], now) {
          var done := Handle(i, now, outcomes[i], free);
          handled := handled + if done then 1 else 0;
        }
      }
      assert was[..|was|] == was && outcomes[..|was|] == outcomes;
    }
  }

  /** Handled is the three steps with nothing in between. */
  lemma {:induction false} HandledIsThreeSteps(s: State, outcome: Outcome, free: Option<Id>)
    requires s.job.Idle?
    ensures var t := Run(s, [Sweep(0), Claim, Finish(outcome, free)]);
            var h := Handled(s.row, s.clock, outcome, free);
            && t.row == h.0 && t.job.Idle?
            && |t.log| == |s.log| + (if h.1.Some? then 1 else 0)
            && (h.1.Some? ==> t.log[|s.log|].notice == h.1.value)
  {
    var a := Step(s, Sweep(0));
    var b := Step(a, Claim);
    var es: seq<Event> := [Sweep(0), Claim, Finish(outcome, free)];
    assert es[1..] == [Claim, Finish(outcome, free)] && es[1..][1..] == [Finish(outcome, free)];
    assert Run(s, es) == Run(a, es[1..]) == Run(b, es[1..][1..]) == Run(Step(b, Finish(outcome, free)), []);
  }

  // ---- Each notice once, in order -------------------------------------------------------------------

  function Rank(n: Notice): nat {
    match n
    case D7 => 0
    case D1 => 1
    case D0 => 2
    case Downgraded => 3
  }

  function Stage(expiresAt: int, now: int): nat {
    if now >= expiresAt + GRACE then 3
    else if now >= expiresAt then 2
    else if expiresAt - now <= DAY then 1
    else 0
  }

  ghost predicate LogInv(s: State, m: Mail) {
    && m.epoch <= s.epoch
    && (m.epoch == s.epoch ==>
          && m.notice in s.row.sent && m.at <= s.clock && Rank(m.notice) == Stage(m.expiresAt, m.at)
          && (s.row.expiresAt == Some(m.expiresAt) || s.row.expiresAt == None))
  }

  ghost predicate JobInv(s: State) {
    match s.job
    case Idle => true
    case Read(seen, at) => at <= s.clock && (forall m :: m in s.log ==> m.at <= at)
    case Claimed(seen, notice, at, epoch) =>
      && epoch <= s.epoch && at <= s.clock && Due(seen, at) == Some(notice)
      && (epoch == s.epoch ==> s.row.expiresAt == seen.expiresAt && notice in s.row.sent)
      && (forall m :: m in s.log ==> m.epoch <= epoch && (m.epoch == epoch ==> Rank(m.notice) < Rank(notice)))
  }

  predicate Increasing(log: seq<Mail>) {
    forall i, j :: 0 <= i < j < |log| ==>
      log[i].epoch <= log[j].epoch
      && (log[i].epoch == log[j].epoch ==> Rank(log[i].notice) < Rank(log[j].notice))
  }

  ghost predicate Inv(s: State) {
    (forall m :: m in s.log ==> LogInv(s, m) && m.at <= s.clock) && JobInv(s) && Increasing(s.log)
  }

  lemma {:induction false} DueIsStage(r: Sub, now: int)
    requires Due(r, now).Some?
    ensures Rank(Due(r, now).value) == Stage(r.expiresAt.value, now)
  {
  }

  lemma {:induction false} StageAdvances(expiresAt: int, a: int, b: int)
    requires a <= b
    ensures Stage(expiresAt, a) <= Stage(expiresAt, b)
  {
  }

  lemma {:induction false} ClaimInv(s: State)
    requires Inv(s) && s.job.Read?
    ensures Inv(Step(s, Claim))
  {
    var seen, at := s.job.seen, s.job.at;
    var due := Due(seen, at);
    if due.Some? && Claimable(s.row, seen, due.value) {
      DueIsStage(seen, at);
      var t := Step(s, Claim);
      forall m | m in t.log ensures m.epoch == t.epoch ==> Rank(m.notice) < Rank(due.value) {
        assert LogInv(s, m);
        if m.epoch == s.epoch {
          StageAdvances(m.expiresAt, m.at, at);
          assert m.notice != due.value;
        }
      }
      forall m | m in t.log ensures LogInv(t, m) {
        assert LogInv(s, m);
      }
    }
  }

  lemma {:induction false} ActedKeeps(r: Sub, n: Notice, outcome: Outcome, free: Option<Id>)
    ensures var t := Acted(r, n, outcome, free);
            && (t.expiresAt == r.expiresAt || t.expiresAt == None)
            && (forall m :: m in r.sent && m != n ==> m in t.sent)
            && (outcome == Done ==> t.sent == r.sent)
  {
  }

  lemma {:induction false} FinishInv(s: State, outcome: Outcome, free: Option<Id>)
    requires Inv(s) && s.job.Claimed?
    ensures Inv(Step(s, Finish(outcome, free)))
  {
    var t := Step(s, Finish(outcome, free));
    var n := s.job.notice;
    ActedKeeps(s.row, n, outcome, free);
    DueIsStage(s.job.seen, s.job.at);
    forall m | m in s.log ensures LogInv(t, m) {
      assert LogInv(s, m);
    }
    forall m | m in t.log ensures LogInv(t, m) && m.at <= t.clock {
      assert m in s.log || m == Mail(n, s.job.epoch, s.job.seen.expiresAt.value, s.job.at);
    }
  }

  lemma {:induction false} StepInv(s: State, e: Event)
    requires Inv(s)
    ensures Inv(Step(s, e))
  {
    if e.Claim? && s.job.Read? {
      ClaimInv(s);
    } else if e.Finish? && s.job.Claimed? {
      FinishInv(s, e.outcome, e.free);
    } else {
      var t := Step(s, e);
      forall m | m in t.log ensures LogInv(t, m) {
        assert LogInv(s, m);
      }
    }
  }

  lemma {:induction false} RunInv(s: State, events: seq<Event>)
    requires Inv(s)
    ensures Inv(Run(s, events))
    decreases |events|
  {
    if events != [] {
      StepInv(s, events[0]);
      RunInv(Step(s, events[0]), events[1..]);
    }
  }

  /**
   * Between two activations the notices mailed strictly advance D7, D1, D0, DOWNGRADED, so each goes
   * out at most once, whatever failed and was retried and wherever payments landed in a sweep.
   */
  lemma {:induction false} NoticesAdvance(row: Sub, clock: int, events: seq<Event>, i: nat, j: nat)
    requires var log := Run(State(row, Idle, clock, 0, []), events).log;
             i < j < |log| && log[i].epoch == log[j].epoch
    ensures var log := Run(State(row, Idle, clock, 0, []), events).log;
            Rank(log[i].notice) < Rank(log[j].notice)
  {
    RunInv(State(row, Idle, clock, 0, []), events);
  }

  // ---- Paid limits end on time ----------------------------------------------------------------------

  ghost predicate NoActivation(events: seq<Event>) {
    forall e :: e in events ==> !e.Activate?
  }

  /** A downgrade that is claimed but not finished. */
  predicate Downgrading(s: State) {
    s.job.Claimed? && s.job.notice == Downgraded
  }

  /** The row is still what was paid for, or it is free and that had lapsed. */
  predicate PaidInv(s: State, paid: Sub) {
    && (s.job.Read? ==> s.job.at <= s.clock)
    && (Downgrading(s) && paid.plan.paid ==> Lapsed(paid, s.clock))
    && ((s.row.plan == paid.plan && s.row.expiresAt == paid.expiresAt)
        || (!s.row.plan.paid && (paid.plan.paid ==> Lapsed(paid, s.clock))))
  }

  lemma {:induction false} StepPaidInv(s: State, e: Event, paid: Sub)
    requires PaidInv(s, paid) && !e.Activate?
    ensures PaidInv(Step(s, e), paid)
    ensures s.clock <= Step(s, e).clock
  {
  }

  lemma {:induction false} RunPaidInv(s: State, events: seq<Event>, paid: Sub)
    requires PaidInv(s, paid) && NoActivation(events)
    ensures PaidInv(Run(s, events), paid)
    decreases |events|
  {
    if events != [] {
      assert events[0] in events && forall e :: e in events[1..] ==> e in events;
      StepPaidInv(s, events[0], paid);
      RunPaidInv(Step(s, events[0]), events[1..], paid);
    }
  }

  /**
   * Until the next activation the sweep neither extends nor cuts what was paid for: whether or not,
   * and however late, it ran, paid limits are granted exactly until the grace period ends.
   */
  lemma {:induction false} PaidLimitsUntilGraceEnds(s: State, events: seq<Event>, now: int)
    requires (s.job.Read? ==> s.job.at <= s.clock) && !Downgrading(s)
    requires NoActivation(events) && Run(s, events).clock <= now
    ensures PaidLimits(Run(s, events).row, now) <==> PaidLimits(s.row, now)
  {
    RunPaidInv(s, events, s.row);
  }

  ghost predicate NeverPaidAfter(r: Sub, t: int) {
    r.plan.paid ==> r.expiresAt.Some? && r.expiresAt.value + GRACE <= t
  }

  /** From the instant the downgrade is due no paid limits are granted, even with a downgrade in flight. */
  lemma {:induction false} NoPaidLimitsOnceDue(s: State, events: seq<Event>, due: int, now: int)
    requires Due(s.row, due) == Some(Downgraded) && due <= now && NoActivation(events)
    ensures !PaidLimits(Run(s, events).row, now)
  {
    NeverPaidStays(s, events, due);
  }

  lemma {:induction false} NeverPaidStays(s: State, events: seq<Event>, t: int)
    requires NeverPaidAfter(s.row, t) && NoActivation(events)
    ensures NeverPaidAfter(Run(s, events).row, t)
    decreases |events|
  {
    if events != [] {
      assert events[0] in events && forall e :: e in events[1..] ==> e in events;
      assert NeverPaidAfter(Step(s, events[0]).row, t);
      NeverPaidStays(Step(s, events[0]), events[1..], t);
    }
  }

  /**
   * The one way a payment is lost: it lands while a downgrade is in flight, which then rewrites the
   * row by id. The plan just paid for survives exactly when the downgrade fails before its write or
   * there is no free plan to move to.
   */
  lemma {:induction false} PaymentDuringDowngrade(s: State, payment: Event, outcome: Outcome, free: Option<Id>, now: int)
    requires Downgrading(s) && payment.Activate?
    requires PaidLimits(Step(s, payment).row, now)
    ensures PaidLimits(Run(s, [payment, Finish(outcome, free)]).row, now) <==> outcome == FailedBefore || free.None?
  {
    var es: seq<Event> := [payment, Finish(outcome, free)];
    var t := Step(s, payment);
    assert es[1..] == [Finish(outcome, free)] && es[1..][1..] == [];
    assert Run(s, es) == Run(t, es[1..]) == Run(Step(t, Finish(outcome, free)), []);
  }

  // ---- The downgrade's own mail ---------------------------------------------------------------------

  lemma {:induction false} FreeRowSendsNothing(s: State, events: seq<Event>)
    requires s.job.Idle? && s.row.expiresAt.None? && NoActivation(events)
    ensures Run(s, events).log == s.log
    decreases |events|
  {
    if events != [] {
      assert events[0] in events && forall e :: e in events[1..] ==> e in events;
      FreeRowSendsNothing(Step(s, events[0]), events[1..]);
    }
  }

  /**
   * When mailing fails after the row was downgraded, releasing the claim makes the notice retried
   * only if no free plan exists: a row moved to a free plan is no candidate any more.
   */
  lemma {:induction false} DowngradeMailRetriedIffNoFreePlan(s: State, free: Option<Id>, events: seq<Event>)
    requires Inv(s) && Downgrading(s) && s.job.epoch == s.epoch && s.row.plan == s.job.seen.plan
    requires NoActivation(events)
    ensures var t := Step(s, Finish(FailedAfter, free));
            && (free.Some? ==> Run(t, events).log == s.log)
            && (free.None? ==> |Run(t, [Sweep(0), Claim, Finish(Done, free)]).log| == |s.log| + 1)
  {
    var t := Step(s, Finish(FailedAfter, free));
    if free.Some? {
      FreeRowSendsNothing(t, events);
    } else {
      HandledIsThreeSteps(t, Done, free);
    }
  }
}
