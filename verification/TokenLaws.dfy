/** What a session is worth to its user: which token it leaves, how long that works, and what ends it. */
module TokenLaws {
  import opened MobileTokens

  /** Rows from before are as they were, but for those revoked. */
  ghost predicate OnlyRevokes(rows: seq<Token>, now: seq<Token>) {
    |rows| <= |now| && forall i :: 0 <= i < |rows| ==> now[i] == rows[i].(revoked := now[i].revoked)
  }

  /** A login ends the session its device had, and issues a live token with what was asked for. */
  lemma {:induction false} LoginIssues(s: Store, q: Request)
    requires q.Login?
    ensures var t, n := Handle(s, q), |s.rows|;
            && |t.rows| == n + 1 && OnlyRevokes(s.rows, t.rows) && t.families == s.families + 1
            && t.rows[n] == Token(q.user, q.device, s.families, q.tenant, q.role, q.expiresAt, false)
            && forall i :: 0 <= i < n ==>
                 (t.rows[i].revoked <==> s.rows[i].revoked || (s.rows[i].user == q.user && s.rows[i].device == q.device))
  {
  }

  /** The token is presented live, in time, on its own device, by an active user who still has the membership. */
  predicate Presentable(t: Token, q: Request)
    requires q.Refresh?
  {
    && !t.revoked && t.device == q.device && q.now <= t.expiresAt
    && q.active && (t.tenant.Some? ==> q.membership.Some?)
  }

  /**
   * A refresh is answered exactly if its token is presentable; the token then gives way to one of the
   * same session, with the role the membership has by now and a term of its own, and no other changes.
   */
  lemma {:induction false} RefreshAnsweredIff(s: Store, q: Request)
    requires q.Refresh?
    ensures Accepted(s, q) <==> q.token < |s.rows| && Presentable(s.rows[q.token], q)
    ensures Accepted(s, q) ==>
              var t, n, was := Handle(s, q), |s.rows|, s.rows[q.token];
              && |t.rows| == n + 1 && OnlyRevokes(s.rows, t.rows) && t.families == s.families
              && t.rows[n] == Token(was.user, was.device, was.family, was.tenant,
                                    if was.tenant.Some? then q.membership else was.role, q.expiresAt, false)
              && forall i :: 0 <= i < n ==> (t.rows[i].revoked <==> s.rows[i].revoked || i == q.token)
    ensures !Accepted(s, q) ==> |Handle(s, q).rows| == |s.rows| && OnlyRevokes(s.rows, Handle(s, q).rows)
  {
  }

  /** The newest token of a login or an answered refresh is accepted when it is presented next. */
  lemma {:induction false} IssuedIsAccepted(s: Store, q: Request, next: Request)
    requires q.Login? || Accepted(s, q)
    requires next.Refresh? && next.token == |s.rows|
    ensures var t := Handle(s, q);
            && |t.rows| == |s.rows| + 1
            && (Accepted(t, next) <==>
                && next.device == t.rows[|s.rows|].device && next.now <= q.expiresAt
                && next.active && (t.rows[|s.rows|].tenant.Some? ==> next.membership.Some?))
  {
    if q.Login? {
      LoginIssues(s, q);
    } else {
      RefreshAnsweredIff(s, q);
    }
    RefreshAnsweredIff(Handle(s, q), next);
  }

  // ---- What ends a session ----------------------------------------------------------------------------

  /**
   * A new login on the device, an end of all the user's sessions, or a token of the family presented:
   * an older one, this one on another device, or this one in time, which exchanges it.
   */
  predicate Ends(s: Store, q: Request, k: nat)
    requires k < |s.rows|
  {
    var t := s.rows[k];
    match q
    case Login(user, device, _, _, _) => user == t.user && device == t.device
    case EndSessions(user) => user == t.user
    case Refresh(token, device, now, _, _, _) =>
      && token < |s.rows| && s.rows[token].family == t.family
      && (token != k || device != t.device || now <= t.expiresAt)
  }

  ghost predicate Ended(s: Store, qs: seq<Request>, k: nat)
    requires k < |s.rows|
    decreases |qs|
  {
    qs != [] &&
    (Ends(s, qs[0], k) || k >= |Handle(s, qs[0]).rows| || Ended(Handle(s, qs[0]), qs[1..], k))
  }

  /** Nothing else ends it. */
  lemma {:induction false} EndsIff(s: Store, q: Request, k: nat)
    requires Inv(s) && k < |s.rows| && !s.rows[k].revoked
    ensures var t := Handle(s, q);
            && k < |t.rows| && t.rows[k] == s.rows[k].(revoked := Ends(s, q, k))
  {
    OnlyRowLive(s, k);
    if q.Refresh? && q.token < |s.rows| && q.token != k && s.rows[q.token].family == s.rows[k].family {
      assert SameSession(s.rows[q.token], s.rows[k]) && s.rows[q.token].revoked;
    }
  }

  /**
   * Over every continuation a live token stays live, with all it says, until one of these ends it; and
   * until then it is accepted whenever it is presented in time by an active member on its device.
   */
  lemma {:induction false} LiveUntilEnded(s: Store, qs: seq<Request>, k: nat, next: Request)
    requires Inv(s) && k < |s.rows| && !s.rows[k].revoked && next.Refresh? && next.token == k
    ensures var t := Run(s, qs);
            && k < |t.rows| && t.rows[k] == s.rows[k].(revoked := Ended(s, qs, k))
            && (Accepted(t, next) <==> !Ended(s, qs, k) && Presentable(s.rows[k], next))
    decreases |qs|
  {
    if qs == [] {
      RefreshAnsweredIff(s, next);
    } else {
      var mid := Handle(s, qs[0]);
      EndsIff(s, qs[0], k);
      HandleInv(s, qs[0]);
      RunInv(mid, qs[1..]);
      if Ends(s, qs[0], k) {
        RevokedStays(mid, qs[1..], k);
        RefreshAnsweredIff(Run(s, qs), next);
      } else {
        LiveUntilEnded(mid, qs[1..], k, next);
      }
    }
  }

  lemma {:induction false} RevokedStays(s: Store, qs: seq<Request>, k: nat)
    requires k < |s.rows| && s.rows[k].revoked
    ensures k < |Run(s, qs).rows| && Run(s, qs).rows[k] == s.rows[k]
    decreases |qs|
  {
    if qs != [] {
      StepKeepsRevoked(s, qs[0], k);
      RevokedStays(Handle(s, qs[0]), qs[1..], k);
    }
  }

  lemma {:induction false} StepKeepsRevoked(s: Store, q: Request, k: nat)
    requires k < |s.rows| && s.rows[k].revoked
    ensures k < |Handle(s, q).rows| && Handle(s, q).rows[k] == s.rows[k]
  {
  }

  /** A refusal for an expired token or an unknown one writes nothing; for an inactive user, only this token. */
  lemma {:induction false} RefusalWrites(s: Store, q: Request)
    requires q.Refresh? && (q.token < |s.rows| ==> !s.rows[q.token].revoked && s.rows[q.token].device == q.device)
    ensures q.token >= |s.rows| || s.rows[q.token].expiresAt < q.now ==> Handle(s, q) == s
    ensures q.token < |s.rows| && q.now <= s.rows[q.token].expiresAt && !q.active ==>
              Handle(s, q) == s.(rows := s.rows[q.token := s.rows[q.token].(revoked := true)])
  {
  }
}
