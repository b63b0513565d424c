/** Hooks that run once their own transaction has committed, in order, each once, whichever of them fail. */
module AfterCommit {
  import opened Base

  /** How a hook ends: well, with a rejected promise, or by throwing before it returns one. */
  datatype Fate = Fine | Rejects | Throws

  datatype Hook = Hook(id: Id, fate: Fate)

  /** What a request does: register a hook, or run a (possibly nested) transaction that commits or rolls back. */
  datatype Act = Register(hook: Hook) | Tx(tx: Id, body: seq<Act>, commits: bool)

  /** `Left` stands where a rejection was left to be logged later, whenever its promise settles. */
  datatype Trace = Called(id: Id) | Logged(id: Id) | Left(id: Id) | Committed(tx: Id) | RolledBack(tx: Id)

  /** Hooks waiting for the enclosing transaction, what happened so far, and whether a hook's error reached the request. */
  datatype Outcome = Outcome(queue: seq<Hook>, trace: seq<Trace>, escaped: bool)

  /** A hook called outside any transaction: nobody waits for its promise. */
  function Outside(h: Hook): seq<Trace> {
    [Called(h.id)] + if h.fate.Rejects? then [Left(h.id)] else []
  }

  /** A hook called and awaited where its failure is caught. */
  function Attempt(h: Hook): seq<Trace> {
    [Called(h.id)] + if h.fate.Fine? then [] else [Logged(h.id)]
  }

  function Runs(queue: seq<Hook>): seq<Trace> {
    if queue == [] then [] else Attempt(queue[0]) + Runs(queue[1..])
  }

  /** A finished transaction: its hooks follow its commit, or are forgotten with it. */
  function Finished(tx: Id, inner: Outcome, commits: bool): seq<Trace> {
    inner.trace + if commits then [Committed(tx)] + Runs(inner.queue) else [RolledBack(tx)]
  }

  /** Outside a transaction a hook runs at once; only a rejection is caught there, a throw ends the request. */
  function Exec(acts: seq<Act>, inside: bool): Outcome {
    if acts == [] then Outcome([], [], false)
    else
      var rest := Exec(acts[1..], inside);
      match acts[0]
      case Register(h) =>
        if inside then rest.(queue := [h] + rest.queue)
        else if h.fate.Throws? then Outcome([], Outside(h), true)
        else rest.(trace := Outside(h) + rest.trace)
      case Tx(tx, body, commits) => rest.(trace := Finished(tx, Exec(body, true), commits) + rest.trace)
  }

  /** The hooks registered directly in a transaction's body. */
  function Direct(acts: seq<Act>): seq<Hook> {
    if acts == [] then [] else (if acts[0].Register? then [acts[0].hook] else []) + Direct(acts[1..])
  }

  lemma {:induction false} InsideQueues(acts: seq<Act>)
    ensures Exec(acts, true).queue == Direct(acts) && !Exec(acts, true).escaped
    ensures Exec(acts, false).queue == []
  {
    if acts != [] {
      InsideQueues(acts[1..]);
      assert [] + Direct(acts[1..]) == Direct(acts[1..]);
    }
  }

  lemma {:induction false} RunsSnoc(queue: seq<Hook>, i: nat)
    requires i < |queue|
    ensures Runs(queue[..i + 1]) == Runs(queue[..i]) + Attempt(queue[i])
  {
    if i == 0 {
      assert queue[..1][1..] == [] && Attempt(queue[0]) + [] == Attempt(queue[0]);
    } else {
      var tail := queue[1..];
      RunsSnoc(tail, i - 1);
      assert queue[..i + 1][1..] == tail[..i] && queue[..i][1..] == tail[..i - 1];
      Regroup(Attempt(queue[0]), Runs(tail[..i - 1]), Attempt(queue[i]));
    }
  }

  // ---- As it runs -----------------------------------------------------------------------------------

  /** The storage holds the open transaction's hooks, or nothing outside a transaction. */
  class Storage {
    var hooks: Option<seq<Hook>>
    var trace: seq<Trace>

    constructor ()
      ensures hooks == None && trace == []
    {
      hooks, trace := None, [];
    }

    method Call(h: Hook) returns (result: Fate)
      modifies this`trace
      ensures trace == old(trace) + [Called(h.id)] && result == h.fate
    {
      trace := trace + [Called(h.id)];
      result := h.fate;
    }

    method AfterCommit(h: Hook) returns (threw: bool)
      modifies this
      ensures old(hooks).Some? ==> hooks == Some(old(hooks).value + [h]) && trace == old(trace) && !threw
      ensures old(hooks).None? ==> hooks == None && trace == old(trace) + Outside(h) && threw == h.fate.Throws?
    {
      threw := false;
      if hooks.Some? {
        hooks := Some(hooks.value + [h]);
      } else {
        var result := Call(h);
        match result {
          case Fine =>
          case Rejects => trace := trace + [Left(h.id)];
          case Throws => threw := true;
        }
      }
    }

    /** Whatever a hook does wrong is logged, and the loop goes on to the next one. */
    method RunHooks(queue: seq<Hook>)
      modifies this`trace
      ensures trace == old(trace) + Runs(queue)
    {
      for i := 0 to |queue|
        invariant trace == old(trace) + Runs(queue[..i])
      {
        RunsSnoc(queue, i);
        var result := Call(queue[i]);
        if !result.Fine? {
          trace := trace + [Logged(queue[i].id)];
        }
        assert trace == old(trace) + (Runs(queue[..i]) + Attempt(queue[i]));
      }
      assert queue[..|queue|] == queue;
    }

    /** The transaction's own result comes back whatever its hooks do. */
    method WithAfterCommit(tx: Id, body: seq<Act>, commits: bool) returns (committed: bool)
      modifies this
      ensures committed == commits
      ensures hooks == old(hooks)
      ensures trace == old(trace) + Finished(tx, Exec(body, true), commits)
      decreases body, 1
    {
      var outer := hooks;
      hooks := Some([]);
      var threw := Execute(body);
      InsideQueues(body);
      var mine := hooks.value;
      hooks := outer;
      if !commits {
        trace := trace + [RolledBack(tx)];
        return false;
      }
      trace := trace + [Committed(tx)];
      RunHooks(mine);
      ghost var inner := Exec(body, true).trace;
      assert mine == Exec(body, true).queue;
      Regroup(old(trace) + inner, [Committed(tx)], Runs(mine));
      Regroup(old(trace), inner, [Committed(tx)] + Runs(mine));
      committed := true;
    }

    method Execute(acts: seq<Act>) returns (threw: bool)
      modifies this
      ensures hooks.Some? == old(hooks).Some?
      ensures hooks.Some? ==> hooks.value == old(hooks).value + Exec(acts, true).queue
      ensures trace == old(trace) + Exec(acts, old(hooks).Some?).trace
      ensures threw == Exec(acts, old(hooks).Some?).escaped
      decreases acts, 0
    {
      if acts == [] {
        return false;
      }
      match acts[0]
      case Register(h) =>
        threw := AfterCommit(h);
        if !threw {
          threw := Execute(acts[1..]);
        }
      case Tx(tx, body, commits) =>
        var committed := WithAfterCommit(tx, body, commits);
        threw := Execute(acts[1..]);
    }
  }

  // ---- What is called, and in which order -----------------------------------------------------------

  /** Hooks in the order their turn comes: those of a committed transaction at its end, as registered. */
  function Turns(acts: seq<Act>, inside: bool): seq<Hook> {
    if acts == [] then []
    else
      (match acts[0]
       case Register(h) => if inside then [] else [h]
       case Tx(_, body, commits) => Turns(body, true) + if commits then Direct(body) else [])
      + Turns(acts[1..], inside)
  }

  /** A request gets as far as the first hook that throws at it. */
  function Reached(acts: seq<Act>): seq<Act> {
    if acts == [] then []
    else if acts[0].Register? && acts[0].hook.fate.Throws? then [acts[0]]
    else [acts[0]] + Reached(acts[1..])
  }

  function Calls(trace: seq<Trace>): seq<Id> {
    if trace == [] then [] else (if trace[0].Called? then [trace[0].id] else []) + Calls(trace[1..])
  }

  function Errors(trace: seq<Trace>): seq<Id> {
    if trace == [] then [] else (if trace[0].Logged? then [trace[0].id] else []) + Errors(trace[1..])
  }

  function Lefts(trace: seq<Trace>): seq<Id> {
    if trace == [] then [] else (if trace[0].Left? then [trace[0].id] else []) + Lefts(trace[1..])
  }

  function Ids(queue: seq<Hook>): seq<Id> {
    if queue == [] then [] else [queue[0].id] + Ids(queue[1..])
  }

  function Failing(queue: seq<Hook>): seq<Hook> {
    if queue == [] then [] else (if queue[0].fate.Fine? then [] else [queue[0]]) + Failing(queue[1..])
  }

  function Rejecting(queue: seq<Hook>): seq<Hook> {
    if queue == [] then [] else (if queue[0].fate.Rejects? then [queue[0]] else []) + Rejecting(queue[1..])
  }

  lemma {:induction false} CallsConcat(a: seq<Trace>, b: seq<Trace>)
    ensures Calls(a + b) == Calls(a) + Calls(b)
  {
    if a == [] {
      assert a + b == b;
    } else {
      assert (a + b)[1..] == a[1..] + b;
      CallsConcat(a[1..], b);
      Regroup(if a[0].Called? then [a[0].id] else [], Calls(a[1..]), Calls(b));
    }
  }

  lemma {:induction false} ErrorsConcat(a: seq<Trace>, b: seq<Trace>)
    ensures Errors(a + b) == Errors(a) + Errors(b)
  {
    if a == [] {
      assert a + b == b;
    } else {
      assert (a + b)[1..] == a[1..] + b;
      ErrorsConcat(a[1..], b);
      Regroup(if a[0].Logged? then [a[0].id] else [], Errors(a[1..]), Errors(b));
    }
  }

  lemma {:induction false} LeftsConcat(a: seq<Trace>, b: seq<Trace>)
    ensures Lefts(a + b) == Lefts(a) + Lefts(b)
  {
    if a == [] {
      assert a + b == b;
    } else {
      assert (a + b)[1..] == a[1..] + b;
      LeftsConcat(a[1..], b);
      Regroup(if a[0].Left? then [a[0].id] else [], Lefts(a[1..]), Lefts(b));
    }
  }

  lemma {:induction false} IdsConcat(a: seq<Hook>, b: seq<Hook>)
    ensures Ids(a + b) == Ids(a) + Ids(b)
  {
    if a == [] {
      assert a + b == b;
    } else {
      assert (a + b)[1..] == a[1..] + b;
      IdsConcat(a[1..], b);
      Regroup([a[0].id], Ids(a[1..]), Ids(b));
    }
  }

  lemma {:induction false} FailingConcat(a: seq<Hook>, b: seq<Hook>)
    ensures Failing(a + b) == Failing(a) + Failing(b)
  {
    if a == [] {
      assert a + b == b;
    } else {
      assert (a + b)[1..] == a[1..] + b;
      FailingConcat(a[1..], b);
      Regroup(if a[0].fate.Fine? then [] else [a[0]], Failing(a[1..]), Failing(b));
    }
  }

  /** What a stretch of the trace owes to the awaited hooks whose turn it was. */
  ghost predicate Tells(trace: seq<Trace>, turns: seq<Hook>) {
    Calls(trace) == Ids(turns) && Errors(trace) == Ids(Failing(turns)) && Lefts(trace) == []
  }

  lemma {:induction false} TellsConcat(a: seq<Trace>, s: seq<Hook>, b: seq<Trace>, t: seq<Hook>)
    requires Tells(a, s) && Tells(b, t)
    ensures Tells(a + b, s + t)
  {
    CallsConcat(a, b);
    ErrorsConcat(a, b);
    LeftsConcat(a, b);
    IdsConcat(s, t);
    FailingConcat(s, t);
    IdsConcat(Failing(s), Failing(t));
  }

  lemma {:induction false} AttemptTells(h: Hook)
    ensures Tells(Attempt(h), [h])
  {
    var called, logged := [Called(h.id)], if h.fate.Fine? then [] else [Logged(h.id)];
    assert [h][1..] == [] && called[1..] == [] && (logged != [] ==> logged[1..] == []);
    CallsConcat(called, logged);
    ErrorsConcat(called, logged);
    LeftsConcat(called, logged);
    assert Calls(called) == [h.id] && Calls(logged) == [] && Errors(called) == [];
    assert Ids([h]) == [h.id] && (if h.fate.Fine? then [] else [h]) + [] == if h.fate.Fine? then [] else [h];
  }

  lemma {:induction false} RunsTell(queue: seq<Hook>)
    ensures Tells(Runs(queue), queue)
  {
    if queue != [] {
      AttemptTells(queue[0]);
      RunsTell(queue[1..]);
      TellsConcat(Attempt(queue[0]), [queue[0]], Runs(queue[1..]), queue[1..]);
      assert queue == [queue[0]] + queue[1..];
    }
  }

  lemma {:induction false} FinishedTells(tx: Id, body: seq<Act>, commits: bool)
    requires Tells(Exec(body, true).trace, Turns(body, true))
    ensures Tells(Finished(tx, Exec(body, true), commits), Turns(body, true) + if commits then Direct(body) else [])
  {
    InsideQueues(body);
    var mark := if commits then Committed(tx) else RolledBack(tx);
    assert [mark][1..] == [] && Tells([mark], []);
    if commits {
      RunsTell(Direct(body));
      TellsConcat([mark], [], Runs(Direct(body)), Direct(body));
      assert [] + Direct(body) == Direct(body);
      TellsConcat(Exec(body, true).trace, Turns(body, true), [mark] + Runs(Direct(body)), Direct(body));
    } else {
      TellsConcat(Exec(body, true).trace, Turns(body, true), [mark], []);
    }
  }

  lemma {:induction false} InsideTells(acts: seq<Act>)
    ensures Tells(Exec(acts, true).trace, Turns(acts, true))
    decreases acts
  {
    if acts != [] {
      var rest := Turns(acts[1..], true);
      InsideTells(acts[1..]);
      match acts[0]
      case Register(_) =>
        assert [] + rest == rest;
      case Tx(tx, body, commits) =>
        InsideTells(body);
        FinishedTells(tx, body, commits);
        TellsConcat(Finished(tx, Exec(body, true), commits), Turns(body, true) + if commits then Direct(body) else [],
                    Exec(acts[1..], true).trace, rest);
    }
  }

  /** A whole request's trace tells of its turns, awaited or not; an error that escapes is the last one's. */
  ghost predicate Accounts(out: Outcome, turns: seq<Hook>, awaited: seq<Hook>, loose: seq<Hook>) {
    && Calls(out.trace) == Ids(turns)
    && (out.escaped ==> turns != [] && turns[|turns| - 1].fate.Throws?)
    && Errors(out.trace) == Ids(Failing(awaited))
    && Lefts(out.trace) == Ids(Rejecting(loose))
  }

  lemma {:induction false} JoinTurns(first: seq<Trace>, turns: seq<Hook>, out: Outcome, later: seq<Hook>,
                                     awaited: seq<Hook>, loose: seq<Hook>)
    requires Tells(first, turns) && Accounts(out, later, awaited, loose)
    ensures Accounts(out.(trace := first + out.trace), turns + later, turns + awaited, loose)
  {
    CallsConcat(first, out.trace);
    ErrorsConcat(first, out.trace);
    LeftsConcat(first, out.trace);
    IdsConcat(turns, later);
    FailingConcat(turns, awaited);
    IdsConcat(Failing(turns), Failing(awaited));
  }

  lemma {:induction false} OutsideTells(h: Hook)
    ensures Calls(Outside(h)) == [h.id] && Errors(Outside(h)) == []
    ensures Lefts(Outside(h)) == if h.fate.Rejects? then [h.id] else []
  {
    var called, left := [Called(h.id)], if h.fate.Rejects? then [Left(h.id)] else [];
    assert called[1..] == [] && (left != [] ==> left[1..] == []);
    CallsConcat(called, left);
    ErrorsConcat(called, left);
    LeftsConcat(called, left);
    assert Calls(called) == [h.id] && Calls(left) == [] && Errors(called) == [] && Errors(left) == [];
    assert Lefts(called) == [] && Lefts(left) == if h.fate.Rejects? then [h.id] else [];
  }

  lemma {:induction false} JoinOutside(h: Hook, out: Outcome, later: seq<Hook>, awaited: seq<Hook>, loose: seq<Hook>)
    requires Accounts(out, later, awaited, loose)
    ensures Accounts(out.(trace := Outside(h) + out.trace), [h] + later, awaited, [h] + loose)
  {
    OutsideTells(h);
    CallsConcat(Outside(h), out.trace);
    ErrorsConcat(Outside(h), out.trace);
    LeftsConcat(Outside(h), out.trace);
    assert ([h] + later)[1..] == later && ([h] + loose)[1..] == loose;
    IdsConcat(if h.fate.Rejects? then [h] else [], Rejecting(loose));
    assert [h][1..] == [] && Ids([h]) == [h.id];
  }

  lemma {:induction false} ThrowAccounts(h: Hook)
    requires h.fate.Throws?
    ensures Accounts(Outcome([], Outside(h), true), [h], [], [h])
  {
    OutsideTells(h);
    assert [h][1..] == [] && [h.id] + [] == [h.id];
  }

  /**
   * Over every nesting, what is called is exactly the hooks whose own transaction committed, and
   * those outside any, each once and in order, up to the one that throws at the request if there is
   * one. The failures of the awaited ones are logged in order; a rejection outside any transaction is
   * left for later, once.
   */
  lemma {:induction false} CalledInTurn(acts: seq<Act>)
    ensures var reached := Reached(acts);
            Accounts(Exec(acts, false), Turns(reached, false), Turns(reached, true), Direct(reached))
    decreases acts
  {
    if acts != [] {
      if acts[0].Register? && acts[0].hook.fate.Throws? {
        var h := acts[0].hook;
        ThrowAccounts(h);
        assert [acts[0]][1..] == [] && [h] + [] == [h];
      } else {
        var out, more := Exec(acts[1..], false), Reached(acts[1..]);
        CalledInTurn(acts[1..]);
        assert ([acts[0]] + more)[1..] == more;
        match acts[0]
        case Register(h) =>
          JoinOutside(h, out, Turns(more, false), Turns(more, true), Direct(more));
          assert [] + Turns(more, true) == Turns(more, true);
        case Tx(tx, body, commits) =>
          InsideTells(body);
          FinishedTells(tx, body, commits);
          assert [] + Direct(more) == Direct(more);
          JoinTurns(Finished(tx, Exec(body, true), commits), Turns(body, true) + if commits then Direct(body) else [],
                    out, Turns(more, false), Turns(more, true), Direct(more));
      }
    }
  }

  // ---- Rejections that are logged later -------------------------------------------------------------

  /** `full` is the trace once every rejection left behind was logged, somewhere after it was left. */
  ghost predicate Completes(trace: seq<Trace>, pending: multiset<Id>, full: seq<Trace>)
    decreases |trace| + |full|
  {
    || (trace == [] && full == [] && pending == multiset{})
    || (full != [] && full[0].Logged? && full[0].id in pending
        && Completes(trace, pending - multiset{full[0].id}, full[1..]))
    || (trace != [] && trace[0].Left? && Completes(trace[1..], pending + multiset{trace[0].id}, full))
    || (trace != [] && full != [] && !trace[0].Left? && full[0] == trace[0] && Completes(trace[1..], pending, full[1..]))
  }

  /** `all` is `ordered`, in its order, with each of `others` put in once, anywhere. */
  ghost predicate Shuffled(ordered: seq<Id>, others: multiset<Id>, all: seq<Id>)
    decreases |all|
  {
    if all == [] then ordered == [] && others == multiset{}
    else
      || (ordered != [] && all[0] == ordered[0] && Shuffled(ordered[1..], others, all[1..]))
      || (all[0] in others && Shuffled(ordered, others - multiset{all[0]}, all[1..]))
  }

  /** The trace without the errors, logged or left: calls, commits and rollbacks. */
  function Quiet(trace: seq<Trace>): seq<Trace> {
    if trace == [] then []
    else (if trace[0].Logged? || trace[0].Left? then [] else [trace[0]]) + Quiet(trace[1..])
  }

  lemma {:induction false} CompletedTells(trace: seq<Trace>, pending: multiset<Id>, full: seq<Trace>)
    requires Completes(trace, pending, full)
    ensures Quiet(full) == Quiet(trace)
    ensures Shuffled(Errors(trace), pending + multiset(Lefts(trace)), Errors(full))
    decreases |trace| + |full|
  {
    if full != [] && full[0].Logged? && full[0].id in pending
       && Completes(trace, pending - multiset{full[0].id}, full[1..]) {
      CompletedTells(trace, pending - multiset{full[0].id}, full[1..]);
      LoggedShuffles(trace, pending, full);
    } else if trace != [] && trace[0].Left? && Completes(trace[1..], pending + multiset{trace[0].id}, full) {
      CompletedTells(trace[1..], pending + multiset{trace[0].id}, full);
      LeftShuffles(trace, pending, full);
    } else if trace != [] {
      CompletedTells(trace[1..], pending, full[1..]);
      CopiedShuffles(trace, pending, full);
    }
  }

  lemma {:induction false} CopiedShuffles(trace: seq<Trace>, pending: multiset<Id>, full: seq<Trace>)
    requires trace != [] && full != [] && !trace[0].Left? && full[0] == trace[0]
    requires Shuffled(Errors(trace[1..]), pending + multiset(Lefts(trace[1..])), Errors(full[1..]))
    ensures Shuffled(Errors(trace), pending + multiset(Lefts(trace)), Errors(full))
  {
    assert Lefts(trace) == Lefts(trace[1..]);
    if trace[0].Logged? {
      assert Errors(trace)[1..] == Errors(trace[1..]) && Errors(full)[1..] == Errors(full[1..]);
    } else {
      assert Errors(trace) == Errors(trace[1..]) && Errors(full) == Errors(full[1..]);
    }
  }

  lemma {:induction false} LoggedShuffles(trace: seq<Trace>, pending: multiset<Id>, full: seq<Trace>)
    requires full != [] && full[0].Logged? && full[0].id in pending
    requires Shuffled(Errors(trace), pending - multiset{full[0].id} + multiset(Lefts(trace)), Errors(full[1..]))
    ensures Shuffled(Errors(trace), pending + multiset(Lefts(trace)), Errors(full))
  {
    var all := pending + multiset(Lefts(trace));
    assert Errors(full)[1..] == Errors(full[1..]);
    assert all - multiset{full[0].id} == pending - multiset{full[0].id} + multiset(Lefts(trace));
  }

  lemma {:induction false} LeftShuffles(trace: seq<Trace>, pending: multiset<Id>, full: seq<Trace>)
    requires trace != [] && trace[0].Left?
    requires Shuffled(Errors(trace[1..]), pending + multiset{trace[0].id} + multiset(Lefts(trace[1..])), Errors(full))
    ensures Shuffled(Errors(trace), pending + multiset(Lefts(trace)), Errors(full))
  {
    assert Errors(trace) == Errors(trace[1..]);
    assert pending + multiset(Lefts(trace)) == pending + multiset{trace[0].id} + multiset(Lefts(trace[1..]));
  }

  /**
   * Whenever the promises left behind settle, every failure is logged exactly once, except the one
   * that reaches the request: those of awaited hooks in order, those outside any transaction anywhere
   * among them; and no call, commit or rollback moves.
   */
  lemma {:induction false} EveryFailureLoggedOnce(acts: seq<Act>, full: seq<Trace>)
    requires Completes(Exec(acts, false).trace, multiset{}, full)
    ensures var reached := Reached(acts);
            && Shuffled(Ids(Failing(Turns(reached, true))), multiset(Ids(Rejecting(Direct(reached)))), Errors(full))
            && Quiet(full) == Quiet(Exec(acts, false).trace)
  {
    CalledInTurn(acts);
    CompletedTells(Exec(acts, false).trace, multiset{}, full);
    assert multiset{} + multiset(Lefts(Exec(acts, false).trace)) == multiset(Lefts(Exec(acts, false).trace));
  }

  lemma {:induction false} BothReject(first: Hook, second: Hook, tx: Id)
    requires first.fate.Rejects? && second.fate.Rejects?
    ensures Exec([Register(first), Register(second), Tx(tx, [], true)], false).trace
            == [Called(first.id), Left(first.id), Called(second.id), Left(second.id), Committed(tx)]
  {
    var acts := [Register(first), Register(second), Tx(tx, [], true)];
    assert acts[1..] == [acts[1], acts[2]] && acts[1..][1..] == [acts[2]] && acts[1..][1..][1..] == [];
    assert Exec([acts[2]], false).trace == [Committed(tx)];
    assert Exec(acts[1..], false).trace == [Called(second.id), Left(second.id), Committed(tx)];
  }

  /** Of two hooks that reject outside any transaction the later may be logged first, and both after a later commit. */
  lemma {:induction false} RejectionsOvertake(first: Hook, second: Hook, tx: Id)
    requires first.fate.Rejects? && second.fate.Rejects?
    ensures Completes(Exec([Register(first), Register(second), Tx(tx, [], true)], false).trace, multiset{},
                      [Called(first.id), Called(second.id), Committed(tx), Logged(second.id), Logged(first.id)])
  {
    BothReject(first, second, tx);
    var trace := [Called(first.id), Left(first.id), Called(second.id), Left(second.id), Committed(tx)];
    var full := [Called(first.id), Called(second.id), Committed(tx), Logged(second.id), Logged(first.id)];
    var one, two := multiset{first.id}, multiset{first.id, second.id};
    assert full[4..][1..] == [] && Completes([], one, full[4..]);
    assert full[3..][1..] == full[4..] && two - multiset{second.id} == one;
    assert Completes([], two, full[3..]);
    assert full[2..][1..] == full[3..] && trace[4..][1..] == [];
    assert Completes(trace[4..], two, full[2..]);
    assert trace[3..][1..] == trace[4..] && one + multiset{second.id} == two;
    assert Completes(trace[3..], one, full[2..]);
    assert trace[2..][1..] == trace[3..] && full[1..][1..] == full[2..];
    assert Completes(trace[2..], one, full[1..]);
    assert trace[1..][1..] == trace[2..] && multiset{} + one == one;
    assert Completes(trace[1..], multiset{}, full[1..]);
  }

  /** An error reaches the request exactly when a hook registered outside any transaction throws. */
  lemma {:induction false} EscapesIff(acts: seq<Act>)
    ensures Exec(acts, false).escaped <==>
            exists i :: 0 <= i < |acts| && acts[i].Register? && acts[i].hook.fate.Throws?
  {
    if acts != [] {
      EscapesIff(acts[1..]);
      if i :| 0 <= i < |acts| && acts[i].Register? && acts[i].hook.fate.Throws? {
        assert i > 0 ==> acts[1..][i - 1] == acts[i];
      }
      if j :| 0 <= j < |acts[1..]| && acts[1..][j].Register? && acts[1..][j].hook.fate.Throws? {
        assert acts[j + 1] == acts[1..][j];
      }
    }
  }

  // ---- How often ------------------------------------------------------------------------------------

  /** Registrations of a hook whose own, innermost transaction commits; at top level there is none to wait for. */
  function Due(acts: seq<Act>, id: Id, inside: bool, commits: bool): nat {
    if acts == [] then 0
    else
      (match acts[0]
       case Register(h) => if h.id == id && (inside ==> commits) then 1 else 0
       case Tx(_, body, c) => Due(body, id, true, c)) + Due(acts[1..], id, inside, commits)
  }

  function Times(ids: seq<Id>, id: Id): nat {
    if ids == [] then 0 else (if ids[0] == id then 1 else 0) + Times(ids[1..], id)
  }

  lemma {:induction false} TimesConcat(a: seq<Id>, b: seq<Id>, id: Id)
    ensures Times(a + b, id) == Times(a, id) + Times(b, id)
  {
    if a == [] {
      assert a + b == b;
    } else {
      assert (a + b)[1..] == a[1..] + b;
      TimesConcat(a[1..], b, id);
    }
  }

  lemma {:induction false} TimesOfTurns(a: seq<Hook>, b: seq<Hook>, id: Id)
    ensures Times(Ids(a + b), id) == Times(Ids(a), id) + Times(Ids(b), id)
  {
    IdsConcat(a, b);
    TimesConcat(Ids(a), Ids(b), id);
  }

  lemma {:induction false} TurnsCount(acts: seq<Act>, id: Id, inside: bool, commits: bool)
    ensures Due(acts, id, inside, commits) ==
            Times(Ids(Turns(acts, inside)), id) + if inside && commits then Times(Ids(Direct(acts)), id) else 0
    decreases acts
  {
    if acts != [] {
      var rest := acts[1..];
      TurnsCount(rest, id, inside, commits);
      match acts[0]
      case Register(h) =>
        assert [h][1..] == [] && Times(Ids([h]), id) == if h.id == id then 1 else 0;
        TimesOfTurns([h], Direct(rest), id);
        TimesOfTurns([h], Turns(rest, inside), id);
        assert [] + Turns(rest, inside) == Turns(rest, inside);
      case Tx(_, body, c) =>
        TurnsCount(body, id, true, c);
        TimesOfTurns(Turns(body, true), if c then Direct(body) else [], id);
        TimesOfTurns(Turns(body, true) + if c then Direct(body) else [], Turns(rest, inside), id);
        assert [] + Direct(rest) == Direct(rest);
    }
  }

  /** Every hook is called exactly once per registration whose own transaction commits, and never for a rolled-back one. */
  lemma {:induction false} RunsExactlyWhenCommitted(acts: seq<Act>, id: Id)
    ensures Times(Calls(Exec(acts, false).trace), id) == Due(Reached(acts), id, false, true)
  {
    CalledInTurn(acts);
    TurnsCount(Reached(acts), id, false, true);
  }

  // ---- Never before its commit ----------------------------------------------------------------------

  /** All registrations of the hook are made directly in transactions numbered tx. */
  ghost predicate OnlyIn(acts: seq<Act>, id: Id, tx: Id, here: bool) {
    acts != [] ==>
      && (match acts[0]
          case Register(h) => h.id == id ==> here
          case Tx(t, body, _) => OnlyIn(body, id, tx, t == tx))
      && OnlyIn(acts[1..], id, tx, here)
  }

  ghost predicate AfterIts(trace: seq<Trace>, id: Id, tx: Id) {
    forall i :: 0 <= i < |trace| && trace[i] == Called(id) ==> exists j :: 0 <= j < i && trace[j] == Committed(tx)
  }

  lemma {:induction false} AfterItsConcat(a: seq<Trace>, b: seq<Trace>, id: Id, tx: Id)
    requires AfterIts(a, id, tx) && AfterIts(b, id, tx)
    ensures AfterIts(a + b, id, tx)
  {
    forall i | 0 <= i < |a + b| && (a + b)[i] == Called(id)
      ensures exists j :: 0 <= j < i && (a + b)[j] == Committed(tx)
    {
      if i < |a| {
        var j :| 0 <= j < i && a[j] == Committed(tx);
        assert (a + b)[j] == Committed(tx);
      } else {
        var j :| 0 <= j < i - |a| && b[j] == Committed(tx);
        assert (a + b)[|a| + j] == Committed(tx);
      }
    }
  }

  ghost predicate Queued(queue: seq<Hook>, id: Id) {
    exists i :: 0 <= i < |queue| && queue[i].id == id
  }

  lemma {:induction false} RunsCallQueued(queue: seq<Hook>, id: Id, i: nat)
    requires i < |Runs(queue)| && Runs(queue)[i] == Called(id)
    ensures Queued(queue, id)
  {
    var first := Attempt(queue[0]);
    if i < |first| {
      assert queue[0].id == id;
    } else {
      RunsCallQueued(queue[1..], id, i - |first|);
      var j :| 0 <= j < |queue[1..]| && queue[1..][j].id == id;
      assert queue[j + 1].id == id;
    }
  }

  lemma {:induction false} FinishedAfterIts(t: Id, inner: Outcome, commits: bool, id: Id, tx: Id)
    requires AfterIts(inner.trace, id, tx) && (Queued(inner.queue, id) ==> t == tx)
    ensures AfterIts(Finished(t, inner, commits), id, tx)
  {
    var end := if commits then [Committed(t)] + Runs(inner.queue) else [RolledBack(t)];
    forall i | 0 <= i < |end| && end[i] == Called(id) ensures exists j :: 0 <= j < i && end[j] == Committed(tx) {
      RunsCallQueued(inner.queue, id, i - 1);
      assert end[0] == Committed(tx);
    }
    AfterItsConcat(inner.trace, end, id, tx);
  }

  lemma {:induction false} DirectHere(acts: seq<Act>, id: Id, tx: Id, here: bool)
    requires OnlyIn(acts, id, tx, here) && Queued(Direct(acts), id)
    ensures here
  {
    if acts[0].Tx? || acts[0].hook.id != id {
      var i :| 0 <= i < |Direct(acts)| && Direct(acts)[i].id == id;
      var skip := if acts[0].Tx? then 0 else 1;
      assert Direct(acts[1..])[i - skip].id == id;
      DirectHere(acts[1..], id, tx, here);
    }
  }

  lemma {:induction false} ExecAfterIts(acts: seq<Act>, id: Id, tx: Id, inside: bool, here: bool)
    requires OnlyIn(acts, id, tx, here) && (!inside ==> !here)
    ensures AfterIts(Exec(acts, inside).trace, id, tx)
    decreases acts
  {
    if acts != [] {
      var rest := Exec(acts[1..], inside);
      ExecAfterIts(acts[1..], id, tx, inside, here);
      match acts[0]
      case Register(h) =>
        if !inside {
          AfterItsConcat(Outside(h), rest.trace, id, tx);
        }
      case Tx(t, body, c) =>
        ExecAfterIts(body, id, tx, true, t == tx);
        InsideQueues(body);
        if Queued(Direct(body), id) {
          DirectHere(body, id, tx, t == tx);
        }
        FinishedAfterIts(t, Exec(body, true), c, id, tx);
        AfterItsConcat(Finished(t, Exec(body, true), c), rest.trace, id, tx);
    }
  }

  /** A hook registered in one transaction, however deep or surrounded, never runs before that one commits. */
  lemma {:induction false} NeverBeforeItsCommit(acts: seq<Act>, id: Id, tx: Id)
    requires OnlyIn(acts, id, tx, false)
    ensures AfterIts(Exec(acts, false).trace, id, tx)
  {
    ExecAfterIts(acts, id, tx, false, false);
  }

  // ---- Failures -------------------------------------------------------------------------------------

  /** The same request with hooks that all end well. */
  function Healed(acts: seq<Act>): seq<Act> {
    if acts == [] then []
    else
      [match acts[0]
       case Register(h) => Register(h.(fate := Fine))
       case Tx(tx, body, commits) => Tx(tx, Healed(body), commits)] + Healed(acts[1..])
  }

  lemma {:induction false} QuietConcat(a: seq<Trace>, b: seq<Trace>)
    ensures Quiet(a + b) == Quiet(a) + Quiet(b)
  {
    if a == [] {
      assert a + b == b;
    } else {
      assert (a + b)[1..] == a[1..] + b;
      QuietConcat(a[1..], b);
      Regroup(if a[0].Logged? || a[0].Left? then [] else [a[0]], Quiet(a[1..]), Quiet(b));
    }
  }

  lemma {:induction false} QuietAttempt(h: Hook)
    ensures Quiet(Attempt(h)) == [Called(h.id)]
  {
    var called, logged := [Called(h.id)], if h.fate.Fine? then [] else [Logged(h.id)];
    QuietConcat(called, logged);
    assert called[1..] == [] && (logged != [] ==> logged[1..] == []);
    assert Quiet(called) == called && Quiet(logged) == [] && called + [] == called;
  }

  lemma {:induction false} QuietOutside(h: Hook)
    ensures Quiet(Outside(h)) == [Called(h.id)]
  {
    var called, left := [Called(h.id)], if h.fate.Rejects? then [Left(h.id)] else [];
    QuietConcat(called, left);
    assert called[1..] == [] && (left != [] ==> left[1..] == []);
    assert Quiet(called) == called && Quiet(left) == [] && called + [] == called;
  }

  lemma {:induction false} QuietRuns(a: seq<Hook>, b: seq<Hook>)
    requires Ids(a) == Ids(b)
    ensures Quiet(Runs(a)) == Quiet(Runs(b))
  {
    if a == [] || b == [] {
      assert a == b == [];
    } else {
      assert Ids(a)[1..] == Ids(a[1..]) && Ids(b)[1..] == Ids(b[1..]);
      assert a[0].id == Ids(a)[0] == Ids(b)[0] == b[0].id;
      QuietRuns(a[1..], b[1..]);
      QuietConcat(Attempt(a[0]), Runs(a[1..]));
      QuietConcat(Attempt(b[0]), Runs(b[1..]));
      QuietAttempt(a[0]);
      QuietAttempt(b[0]);
    }
  }

  lemma {:induction false} HealedDirect(acts: seq<Act>)
    ensures Ids(Direct(Healed(acts))) == Ids(Direct(acts))
  {
    if acts != [] {
      HealedDirect(acts[1..]);
      assert Healed(acts)[1..] == Healed(acts[1..]);
      if acts[0].Register? {
        IdsConcat([acts[0].hook], Direct(acts[1..]));
        IdsConcat([acts[0].hook.(fate := Fine)], Direct(Healed(acts[1..])));
      } else {
        assert [] + Direct(acts[1..]) == Direct(acts[1..]);
        assert [] + Direct(Healed(acts[1..])) == Direct(Healed(acts[1..]));
      }
    }
  }

  lemma {:induction false} QuietFinished(tx: Id, body: seq<Act>, commits: bool)
    requires Quiet(Exec(Healed(body), true).trace) == Quiet(Exec(body, true).trace)
    ensures Quiet(Finished(tx, Exec(Healed(body), true), commits)) == Quiet(Finished(tx, Exec(body, true), commits))
  {
    var well, ill := Exec(Healed(body), true), Exec(body, true);
    InsideQueues(body);
    InsideQueues(Healed(body));
    HealedDirect(body);
    QuietRuns(well.queue, ill.queue);
    QuietConcat([Committed(tx)], Runs(well.queue));
    QuietConcat([Committed(tx)], Runs(ill.queue));
    QuietConcat(well.trace, if commits then [Committed(tx)] + Runs(well.queue) else [RolledBack(tx)]);
    QuietConcat(ill.trace, if commits then [Committed(tx)] + Runs(ill.queue) else [RolledBack(tx)]);
  }

  lemma {:induction false} QuietInside(acts: seq<Act>)
    ensures Quiet(Exec(Healed(acts), true).trace) == Quiet(Exec(acts, true).trace)
    decreases acts
  {
    if acts != [] {
      QuietInside(acts[1..]);
      assert Healed(acts)[1..] == Healed(acts[1..]);
      if acts[0].Tx? {
        var t := acts[0];
        QuietInside(t.body);
        QuietFinished(t.tx, t.body, t.commits);
        QuietConcat(Finished(t.tx, Exec(Healed(t.body), true), t.commits), Exec(Healed(acts[1..]), true).trace);
        QuietConcat(Finished(t.tx, Exec(t.body, true), t.commits), Exec(acts[1..], true).trace);
      }
    }
  }

  /**
   * Which hooks fail, and how, changes only what is logged: the same hooks are called between the
   * same commits and rollbacks as if all had ended well, as far as the request gets.
   */
  lemma {:induction false} FailuresDoNotSpread(acts: seq<Act>)
    ensures Quiet(Exec(acts, false).trace) == Quiet(Exec(Healed(Reached(acts)), false).trace)
    decreases acts
  {
    if acts != [] {
      var more := Reached(acts[1..]);
      match acts[0]
      case Register(h) =>
        var fine := h.(fate := Fine);
        QuietOutside(h);
        QuietOutside(fine);
        if h.fate.Throws? {
          assert [acts[0]][1..] == [] && Healed([acts[0]]) == [Register(fine)];
          assert [Register(fine)][1..] == [] && Outside(fine) + [] == Outside(fine);
        } else {
          FailuresDoNotSpread(acts[1..]);
          assert ([acts[0]] + more)[1..] == more;
          assert Healed(Reached(acts))[1..] == Healed(more);
          QuietConcat(Outside(h), Exec(acts[1..], false).trace);
          QuietConcat(Outside(fine), Exec(Healed(more), false).trace);
        }
      case Tx(tx, body, commits) =>
        FailuresDoNotSpread(acts[1..]);
        assert ([acts[0]] + more)[1..] == more;
        assert Healed(Reached(acts))[1..] == Healed(more);
        QuietInside(body);
        QuietFinished(tx, body, commits);
        QuietConcat(Finished(tx, Exec(body, true), commits), Exec(acts[1..], false).trace);
        QuietConcat(Finished(tx, Exec(Healed(body), true), commits), Exec(Healed(more), false).trace);
    }
  }

  /** The loop without its try: the first failing hook ends it. */
  function Unguarded(queue: seq<Hook>): seq<Trace> {
    if queue == [] then []
    else [Called(queue[0].id)] + if queue[0].fate.Fine? then Unguarded(queue[1..]) else []
  }

  /** The try is what lets the others run: without it all hooks are called exactly when none but the last fails. */
  lemma {:induction false} UnguardedCallsAllIff(queue: seq<Hook>)
    ensures Calls(Unguarded(queue)) == Ids(queue)
            <==> forall i :: 0 <= i < |queue| - 1 ==> queue[i].fate.Fine?
  {
    if queue != [] {
      var tail := queue[1..];
      var rest := if queue[0].fate.Fine? then Unguarded(tail) else [];
      UnguardedCallsAllIff(tail);
      CallsConcat([Called(queue[0].id)], rest);
      assert [Called(queue[0].id)][1..] == [] && Calls([Called(queue[0].id)]) == [queue[0].id];
      assert Ids(queue)[1..] == Ids(tail) && Calls(Unguarded(queue))[1..] == Calls(rest);
      assert tail != [] ==> |Ids(tail)| > 0;
      assert forall i :: 0 <= i < |tail| ==> tail[i] == queue[i + 1];
      assert forall i :: 0 < i < |queue| ==> queue[i] == tail[i - 1];
    }
  }
}
