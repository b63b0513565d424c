/** Rotating refresh tokens of the mobile app: one lineage per login, burnt as a whole when it leaks. */
module MobileTokens {
  import opened Base

  /** A row; its index stands for the raw token, so hashes are distinct by construction. */
  datatype Token = Token(user: Id, device: Id, family: Id, tenant: Option<Id>, role: Option<Id>, expiresAt: int, revoked: bool)

  /** `families` counts the family ids handed out: the next login gets one nobody has seen. */
  datatype Store = Store(rows: seq<Token>, families: nat)

  datatype Where =
    | OfFamily(family: Id)
    | OfDevice(user: Id, device: Id)
    | OfUser(user: Id)
    | Row(index: nat)

  /** A refresh carries what the user and membership look-ups answer at that moment. */
  datatype Request =
    | Login(user: Id, device: Id, tenant: Option<Id>, role: Option<Id>, expiresAt: int)
    | Refresh(token: nat, device: Id, now: int, active: bool, membership: Option<Id>, expiresAt: int)
    | EndSessions(user: Id)

  predicate Hit(t: Token, i: nat, w: Where) {
    match w
    case OfFamily(f) => t.family == f
    case OfDevice(u, d) => t.user == u && t.device == d
    case OfUser(u) => t.user == u
    case Row(k) => i == k
  }

  function Revoked(rows: seq<Token>, w: Where): (r: seq<Token>)
    ensures |r| == |rows|
  {
    seq(|rows|, i requires 0 <= i < |rows| => if Hit(rows[i], i, w) then rows[i].(revoked := true) else rows[i])
  }

  predicate Reused(s: Store, q: Request)
    requires q.Refresh? && q.token < |s.rows|
  {
    s.rows[q.token].revoked || s.rows[q.token].device != q.device
  }

  predicate LostMembership(s: Store, q: Request)
    requires q.Refresh? && q.token < |s.rows|
  {
    s.rows[q.token].tenant.Some? && q.membership.None?
  }

  /** The refresh is answered with a new token. */
  predicate Accepted(s: Store, q: Request) {
    && q.Refresh? && q.token < |s.rows| && !Reused(s, q)
    && s.rows[q.token].expiresAt >= q.now && q.active && !LostMembership(s, q)
  }

  function Rotated(t: Token, q: Request): Token
    requires q.Refresh?
  {
    t.(role := if t.tenant.Some? then q.membership else t.role, expiresAt := q.expiresAt, revoked := false)
  }

  function Handle(s: Store, q: Request): Store {
    match q
    case Login(user, device, tenant, role, expiresAt) =>
      var issued := Token(user, device, s.families, tenant, role, expiresAt, false);
      Store(Revoked(s.rows, OfDevice(user, device)) + [issued], s.families + 1)
    case EndSessions(user) => s.(rows := Revoked(s.rows, OfUser(user)))
    case Refresh(token, device, now, active, membership, expiresAt) =>
      if token >= |s.rows| then s
      else if Reused(s, q) then s.(rows := Revoked(s.rows, OfFamily(s.rows[token].family)))
      else if s.rows[token].expiresAt < now then s
      else if !active then s.(rows := Revoked(s.rows, Row(token)))
      else if LostMembership(s, q) then s.(rows := Revoked(s.rows, OfFamily(s.rows[token].family)))
      else s.(rows := Revoked(s.rows, Row(token)) + [Rotated(s.rows[token], q)])
  }

  function Run(s: Store, qs: seq<Request>): Store
    decreases |qs|
  {
    if qs == [] then s else Run(Handle(s, qs[0]), qs[1..])
  }

  // ---- As it runs -----------------------------------------------------------------------------------

  class Service {
    var rows: seq<Token>
    var families: nat

    constructor ()
      ensures rows == [] && families == 0
    {
      rows, families := [], 0;
    }

    function State(): Store
      reads this
    {
      Store(rows, families)
    }

    method UpdateMany(w: Where)
      modifies this`rows
      ensures rows == Revoked(old(rows), w)
    {
      rows := Revoked(rows, w);
    }

    method Create(t: Token) returns (token: nat)
      modifies this`rows
      ensures rows == old(rows) + [t] && token == |old(rows)|
    {
      token := |rows|;
      rows := rows + [t];
    }

    /** Logging in again on a device supersedes the session it had. */
    method IssueFresh(user: Id, device: Id, tenant: Option<Id>, role: Option<Id>, expiresAt: int) returns (token: nat)
      modifies this
      ensures State() == Handle(old(State()), Login(user, device, tenant, role, expiresAt))
      ensures token == |old(rows)|
    {
      UpdateMany(OfDevice(user, device));
      token := Create(Token(user, device, families, tenant, role, expiresAt, false));
      families := families + 1;
    }

    method Refresh(token: nat, device: Id, now: int, active: bool, membership: Option<Id>, expiresAt: int)
      returns (next: Option<nat>)
      modifies this
      ensures var q := Request.Refresh(token, device, now, active, membership, expiresAt);
              && State() == Handle(old(State()), q)
              && next == if Accepted(old(State()), q) then Some(|old(rows)|) else None
    {
      next := None;
      if token >= |rows| {
        return;
      }
      var stored := rows[token];
      if stored.revoked || stored.device != device {
        UpdateMany(OfFamily(stored.family));
        return;
      }
      if stored.expiresAt < now {
        return;
      }
      if !active {
        UpdateMany(Row(token));
        return;
      }
      UpdateMany(Row(token));
      var role := stored.role;
      if stored.tenant.Some? {
        if membership.None? {
          UpdateMany(OfFamily(stored.family));
          assert rows == Revoked(old(rows), OfFamily(stored.family));
          return;
        }
        role := membership;
      }
      var created := Create(Token(stored.user, stored.device, stored.family, stored.tenant, role, expiresAt, false));
      next := Some(created);
    }
  }

  // ---- Every reachable store ------------------------------------------------------------------------

  predicate SameSession(a: Token, b: Token) {
    a.user == b.user && a.device == b.device
  }

  /** Only the newest token of a user's device can be live, and a family never leaves its device. */
  ghost predicate Inv(s: Store) {
    && (forall i :: 0 <= i < |s.rows| ==> s.rows[i].family < s.families)
    && (forall i, j :: 0 <= i < |s.rows| && 0 <= j < |s.rows| && s.rows[i].family == s.rows[j].family ==>
          SameSession(s.rows[i], s.rows[j]))
    && (forall i, j :: 0 <= i < j < |s.rows| && SameSession(s.rows[i], s.rows[j]) ==> s.rows[i].revoked)
  }

  lemma {:induction false} RevokedInv(s: Store, w: Where)
    requires Inv(s)
    ensures Inv(s.(rows := Revoked(s.rows, w)))
  {
  }

  /** A row may join when every other row of its session is revoked and its family is new or its own. */
  lemma {:induction false} AppendInv(s: Store, t: Token, families: nat)
    requires Inv(s) && s.families <= families && t.family < families
    requires forall i :: 0 <= i < |s.rows| && SameSession(s.rows[i], t) ==> s.rows[i].revoked
    requires forall i :: 0 <= i < |s.rows| && s.rows[i].family == t.family ==> SameSession(s.rows[i], t)
    ensures Inv(Store(s.rows + [t], families))
  {
  }

  lemma {:induction false} AcceptedInv(s: Store, q: Request)
    requires Inv(s) && Accepted(s, q)
    ensures Inv(Handle(s, q))
  {
    var mid := s.(rows := Revoked(s.rows, Row(q.token)));
    var stored := s.rows[q.token];
    RevokedInv(s, Row(q.token));
    forall i | 0 <= i < |s.rows| && SameSession(mid.rows[i], stored) ensures mid.rows[i].revoked {
      assert i > q.token ==> SameSession(s.rows[q.token], s.rows[i]);
    }
    AppendInv(mid, Rotated(stored, q), s.families);
  }

  lemma {:induction false} HandleInv(s: Store, q: Request)
    requires Inv(s)
    ensures Inv(Handle(s, q))
  {
    if Accepted(s, q) {
      AcceptedInv(s, q);
    } else if q.Login? {
      RevokedInv(s, OfDevice(q.user, q.device));
      AppendInv(s.(rows := Revoked(s.rows, OfDevice(q.user, q.device))),
                Token(q.user, q.device, s.families, q.tenant, q.role, q.expiresAt, false), s.families + 1);
    } else if q.EndSessions? {
      RevokedInv(s, OfUser(q.user));
    } else if q.token < |s.rows| {
      RevokedInv(s, OfFamily(s.rows[q.token].family));
      RevokedInv(s, Row(q.token));
    }
  }

  lemma {:induction false} RunInv(s: Store, qs: seq<Request>)
    requires Inv(s)
    ensures Inv(Run(s, qs))
    decreases |qs|
  {
    if qs != [] {
      HandleInv(s, qs[0]);
      RunInv(Handle(s, qs[0]), qs[1..]);
    }
  }

  /** Whatever happens, a user's device has at most one live token: the last one issued for it. */
  lemma {:induction false} OneLiveToken(qs: seq<Request>, i: nat, j: nat)
    requires var rows := Run(Store([], 0), qs).rows;
             i < |rows| && j < |rows| && SameSession(rows[i], rows[j]) && !rows[i].revoked
    ensures j <= i && (!Run(Store([], 0), qs).rows[j].revoked ==> i == j)
  {
    RunInv(Store([], 0), qs);
  }

  // ---- Burnt families -------------------------------------------------------------------------------

  predicate Burnt(s: Store, family: Id) {
    family < s.families
    && forall i :: 0 <= i < |s.rows| && s.rows[i].family == family ==> s.rows[i].revoked
  }

  lemma {:induction false} HandleKeepsBurnt(s: Store, q: Request, family: Id)
    requires Burnt(s, family)
    ensures Burnt(Handle(s, q), family)
    ensures q.Refresh? && q.token < |s.rows| && s.rows[q.token].family == family ==> !Accepted(s, q)
  {
  }

  /** A burnt family never has a live token again, and no token of it is ever exchanged again. */
  lemma {:induction false} BurntForGood(s: Store, family: Id, qs: seq<Request>, q: Request)
    requires Burnt(s, family)
    ensures var t := Run(s, qs);
            && Burnt(t, family)
            && (q.Refresh? && q.token < |t.rows| && t.rows[q.token].family == family ==> !Accepted(t, q))
    decreases |qs|
  {
    if qs == [] {
      HandleKeepsBurnt(s, q, family);
    } else {
      HandleKeepsBurnt(s, qs[0], family);
      BurntForGood(Handle(s, qs[0]), family, qs[1..], q);
    }
  }

  /**
   * What a refresh burns: a token presented after its turn or from another device, and an unexpired
   * one whose owner was deactivated or lost the membership.
   */
  lemma {:induction false} LeakBurnsFamily(s: Store, q: Request, qs: seq<Request>, family: Id)
    requires Inv(s) && q.Refresh? && q.token < |s.rows| && s.rows[q.token].family == family
    requires Reused(s, q) || (s.rows[q.token].expiresAt >= q.now && (!q.active || LostMembership(s, q)))
    ensures Burnt(Run(Handle(s, q), qs), family)
  {
    if !Reused(s, q) && !q.active {
      OnlyRowLive(s, q.token);
    }
    BurntForGood(Handle(s, q), family, qs, q);
  }

  lemma {:induction false} OnlyRowLive(s: Store, k: nat)
    requires Inv(s) && k < |s.rows| && !s.rows[k].revoked
    ensures forall i :: 0 <= i < |s.rows| && i != k && s.rows[i].family == s.rows[k].family ==> s.rows[i].revoked
  {
    forall i | 0 <= i < |s.rows| && i != k && s.rows[i].family == s.rows[k].family ensures s.rows[i].revoked {
      assert SameSession(s.rows[i], s.rows[k]) && SameSession(s.rows[k], s.rows[i]);
    }
  }

  /** Rows are never removed, never change hands, and never come back to life. */
  lemma {:induction false} RowsPersist(s: Store, qs: seq<Request>, k: nat)
    requires k < |s.rows|
    ensures var t := Run(s, qs);
            && k < |t.rows| && t.rows[k].family == s.rows[k].family && SameSession(t.rows[k], s.rows[k])
            && (s.rows[k].revoked ==> t.rows[k].revoked)
    decreases |qs|
  {
    if qs != [] {
      RowsPersist(Handle(s, qs[0]), qs[1..], k);
    }
  }

  /**
   * A token is exchanged at most once. Whatever happened since, presenting it a second time fails
   * and leaves its whole family, the exchanged tokens included, dead on every continuation.
   */
  lemma {:induction false} SecondUseBurnsFamily(s: Store, q: Request, between: seq<Request>, again: Request, after: seq<Request>)
    requires Inv(s) && Accepted(s, q)
    requires again.Refresh? && again.token == q.token
    ensures var t := Run(Handle(s, q), between);
            && !Accepted(t, again)
            && Burnt(Run(Handle(t, again), after), s.rows[q.token].family)
  {
    var t := Run(Handle(s, q), between);
    HandleInv(s, q);
    RunInv(Handle(s, q), between);
    RowsPersist(Handle(s, q), between, q.token);
    LeakBurnsFamily(t, again, after, s.rows[q.token].family);
  }

  /** A password reset ends every family the user had, for good. */
  lemma {:induction false} ResetEndsEverySession(s: Store, user: Id, qs: seq<Request>, k: nat)
    requires Inv(s) && k < |s.rows| && s.rows[k].user == user
    ensures Burnt(Run(Handle(s, EndSessions(user)), qs), s.rows[k].family)
  {
    var t := Handle(s, EndSessions(user));
    forall i | 0 <= i < |t.rows| && t.rows[i].family == s.rows[k].family ensures t.rows[i].revoked {
      assert SameSession(s.rows[i], s.rows[k]);
    }
    BurntForGood(t, s.rows[k].family, qs, EndSessions(user));
  }
}
