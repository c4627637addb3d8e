/**
 What `SessionManager.call` (src/ccu/session.ts) and `withRetry` (src/middleware/retry.ts)
 do and return, read off the trace alone: the requests and logins of one call, and the
 invocations, pauses and tokens of one retried call with the outcome of each; and so for the
 write tools of src/tools/control.ts.
 */
module RetryRuns {
  import opened Retry

  // ---------------------------------------------------------------- one call

  /** After AUTH on the first request: the login, and a second request exactly if it brought another session. */
  predicate SecondTry(e: seq<Ev>, write: bool, result: Outcome) {
    && e != [] && e[0].LoggedIn?
    && match e[0].answer
       case NewSession => |e| == 2 && e[1] == Sent(write, result)
       case LoginRejected(error) => |e| == 1 && result == (if error.Success? then OtherError else error)
       case _ => |e| == 1 && result == AuthError
  }

  /** The first request and what follows from its outcome. */
  predicate FirstTry(e: seq<Ev>, write: bool, result: Outcome) {
    && e != [] && e[0].Sent? && e[0].write == write
    && if e[0].outcome == AuthError then SecondTry(e[1..], write, result) else |e| == 1 && result == e[0].outcome
  }

  /** The events `e` are one call that ends with `result`: a login first if there was no session, which ends
      the call unless it brought one. */
  predicate OneCall(e: seq<Ev>, write: bool, result: Outcome) {
    && e != []
    && if !e[0].LoggedIn? then FirstTry(e, write, result)
       else match e[0].answer
         case LoginRejected(error) => |e| == 1 && result == (if error.Success? then OtherError else error)
         case NoSession => |e| == 1 && result == AuthError
         case _ => FirstTry(e[1..], write, result)
  }

  /** `r` is `t` followed by `e`. */
  predicate Extends(r: Run, t: seq<Ev>, e: seq<Ev>) {
    r.trace == t + e
  }

  lemma SecondTryOf(a: Oracle, t: seq<Ev>, write: bool) returns (e: seq<Ev>)
    ensures var r := ReloginRun(a, t, write); Extends(r, t, e) && SecondTry(e, write, r.result)
  {
    var l := a(|t|).login;
    var t1 := t + [LoggedIn(l)];
    e := if l.NewSession? then [LoggedIn(l), Sent(write, a(|t1|).outcome)] else [LoggedIn(l)];
    assert t1 + [Sent(write, a(|t1|).outcome)] == t + [LoggedIn(l), Sent(write, a(|t1|).outcome)];
  }

  lemma FirstTryOf(a: Oracle, t: seq<Ev>, write: bool) returns (e: seq<Ev>)
    ensures var r := SendRun(a, t, write); Extends(r, t, e) && FirstTry(e, write, r.result)
  {
    var sent := Sent(write, a(|t|).outcome);
    if a(|t|).outcome.AuthError? {
      var more := SecondTryOf(a, t + [sent], write);
      e := [sent] + more;
      assert t + [sent] + more == t + e && e[1..] == more;
    } else {
      e := [sent];
    }
  }

  /** Every call sends its request, and again after AUTH exactly if the login after it brought another session;
      it returns what the CCU said last, or what the login failed with. */
  lemma CallExactly(a: Oracle, t: seq<Ev>, write: bool) returns (e: seq<Ev>)
    ensures var r := CallRun(a, t, write); Extends(r, t, e) && OneCall(e, write, r.result)
    ensures var r := CallRun(a, t, write); e != [] && (e[0].LoggedIn? <==> !a(|t|).loggedIn)
  {
    if a(|t|).loggedIn {
      e := FirstTryOf(a, t, write);
    } else {
      var l := a(|t|).login;
      if l.LoginRejected? || l.NoSession? {
        e := [LoggedIn(l)];
      } else {
        var more := FirstTryOf(a, t + [LoggedIn(l)], write);
        e := [LoggedIn(l)] + more;
        assert t + [LoggedIn(l)] + more == t + e && e[1..] == more;
      }
    }
  }

  // ---------------------------------------------------------------- retried calls

  /** Events inside a call. */
  predicate Inner(e: Ev) {
    e.LoggedIn? || e.Sent?
  }

  /** The trace as the caller of the calls sees it. */
  function Outer(t: seq<Ev>): seq<Ev> {
    if t == [] then [] else Outer(t[..|t| - 1]) + (if Inner(t[|t| - 1]) then [] else [t[|t| - 1]])
  }

  lemma OuterAppend(t: seq<Ev>, e: Ev)
    ensures Outer(t + [e]) == if Inner(e) then Outer(t) else Outer(t) + [e]
  {
    assert (t + [e])[..|t|] == t;
  }

  lemma {:induction false} OuterExtends(t: seq<Ev>, e: seq<Ev>)
    requires forall i :: 0 <= i < |e| ==> Inner(e[i])
    ensures Outer(t + e) == Outer(t)
    decreases |e|
  {
    if e == [] {
      assert t + e == t;
    } else {
      OuterExtends(t, e[..|e| - 1]);
      assert t + e == t + e[..|e| - 1] + [e[|e| - 1]];
      OuterAppend(t + e[..|e| - 1], e[|e| - 1]);
    }
  }

  /** An invocation of a call and its outcome. */
  function Invocation(write: bool, o: Outcome): seq<Ev> {
    [Invoked(write), Returned(write, o)]
  }

  /** Between two invocations: the delay, and a token of its own if calls are limited. */
  function Pause(limited: bool): seq<Ev> {
    if limited then [Slept, Acquired(true)] else [Slept]
  }

  /** Invocations with these outcomes, with a pause between any two. */
  function Rounds(outcomes: seq<Outcome>, write: bool, limited: bool): seq<Ev> {
    if outcomes == [] then []
    else if |outcomes| == 1 then Invocation(write, outcomes[0])
    else Rounds(outcomes[..|outcomes| - 1], write, limited) + Pause(limited) + Invocation(write, outcomes[|outcomes| - 1])
  }

  lemma TriesAreInner(e: seq<Ev>, write: bool, result: Outcome)
    requires FirstTry(e, write, result)
    ensures forall i :: 0 <= i < |e| ==> Inner(e[i])
  {
    if e[0].outcome == AuthError {
      var more := e[1..];
      assert forall i :: 0 <= i < |more| ==> Inner(more[i]);
      assert e == [e[0]] + more;
    }
  }

  lemma CallIsInner(e: seq<Ev>, write: bool, result: Outcome)
    requires OneCall(e, write, result)
    ensures forall i :: 0 <= i < |e| ==> Inner(e[i])
  {
    if !e[0].LoggedIn? {
      TriesAreInner(e, write, result);
    } else if e[0].answer.NewSession? || e[0].answer.SameSession? {
      TriesAreInner(e[1..], write, result);
      assert e == [e[0]] + e[1..];
    }
  }

  lemma CallOuter(t: seq<Ev>, e: seq<Ev>, write: bool, result: Outcome)
    requires OneCall(e, write, result)
    ensures Outer(t + [Invoked(write)] + e + [Returned(write, result)]) == Outer(t) + Invocation(write, result)
  {
    var t1 := t + [Invoked(write)];
    OuterAppend(t, Invoked(write));
    CallIsInner(e, write, result);
    OuterExtends(t1, e);
    OuterAppend(t1 + e, Returned(write, result));
    assert Outer(t) + [Invoked(write)] + [Returned(write, result)] == Outer(t) + Invocation(write, result);
  }

  lemma InvokeOuter(a: Oracle, t: seq<Ev>, write: bool)
    ensures var r := InvokeRun(a, t, write); Outer(r.trace) == Outer(t) + Invocation(write, r.result)
  {
    var t1 := t + [Invoked(write)];
    var e := CallExactly(a, t1, write);
    CallOuter(t, e, write, CallRun(a, t1, write).result);
  }

  lemma PauseOuter(t: seq<Ev>, ok: bool)
    ensures Outer(t + [Slept]) == Outer(t) + [Slept]
    ensures Outer(t + [Slept] + [Acquired(ok)]) == Outer(t) + [Slept, Acquired(ok)]
  {
    OuterAppend(t, Slept);
    OuterAppend(t + [Slept], Acquired(ok));
  }

  /** The outcomes that are worth another attempt. */
  predicate NoAnswer(o: Outcome) {
    o == Timeout || o == Unreachable
  }

  /** These outcomes are those of a retried call with `limit` invocations at most: only a timeout or an
      unreachable CCU leads to another one. */
  ghost predicate Retried(outcomes: seq<Outcome>, limit: nat, refused: bool, result: Outcome) {
    && 1 <= |outcomes| <= limit
    && (forall k :: 0 <= k < |outcomes| - 1 ==> NoAnswer(outcomes[k]))
    && var last := outcomes[|outcomes| - 1];
       if refused then |outcomes| < limit && NoAnswer(last) && result == OtherError
       else result == last && (NoAnswer(last) ==> |outcomes| == limit)
  }

  /** The trace from `start` on, as the caller of the calls sees it. */
  ghost predicate OuterRun(start: seq<Ev>, r: Run, outcomes: seq<Outcome>, write: bool, limited: bool, refused: bool) {
    Outer(r.trace) == start + Rounds(outcomes, write, limited) + (if refused then [Slept, Acquired(false)] else [])
  }

  /** Attempts with the outcomes `before` have been made, and the pause for the next one is over. */
  ghost predicate Before(start: seq<Ev>, t: seq<Ev>, before: seq<Outcome>, write: bool, limited: bool) {
    && Outer(t) == start + Rounds(before, write, limited) + (if before == [] then [] else Pause(limited))
    && (forall k :: 0 <= k < |before| ==> NoAnswer(before[k]))
  }

  lemma AttemptMade(a: Oracle, start: seq<Ev>, t: seq<Ev>, before: seq<Outcome>, write: bool, limited: bool)
    requires Before(start, t, before, write, limited)
    ensures var c := InvokeRun(a, t, write); Outer(c.trace) == start + Rounds(before + [c.result], write, limited)
  {
    InvokeOuter(a, t, write);
    NextRound(before, InvokeRun(a, t, write).result, write, limited);
  }

  lemma PauseMade(start: seq<Ev>, t: seq<Ev>, outcomes: seq<Outcome>, write: bool)
    requires outcomes != [] && forall k :: 0 <= k < |outcomes| ==> NoAnswer(outcomes[k])
    ensures Outer(t) == start + Rounds(outcomes, write, false) ==> Before(start, t + [Slept], outcomes, write, false)
    ensures Outer(t) == start + Rounds(outcomes, write, true) ==>
      Before(start, t + [Slept] + [Acquired(true)], outcomes, write, true)
  {
    PauseOuter(t, true);
  }

  lemma TokenRefused(start: seq<Ev>, t: seq<Ev>, outcomes: seq<Outcome>, write: bool, limited: bool)
    requires Outer(t) == start + Rounds(outcomes, write, limited)
    ensures OuterRun(start, Run(t + [Slept] + [Acquired(false)], OtherError), outcomes, write, limited, true)
  {
    PauseOuter(t, false);
  }

  lemma RetriableStill(before: seq<Outcome>, o: Outcome)
    requires (forall k :: 0 <= k < |before| ==> NoAnswer(before[k])) && NoAnswer(o)
    ensures forall k :: 0 <= k < |before + [o]| ==> NoAnswer((before + [o])[k])
  {
  }

  /** The attempts from number `attempt` on, after attempts with the outcomes `before`. */
  lemma {:induction false} AttemptsExactly(
    a: Oracle, start: seq<Ev>, t: seq<Ev>, write: bool, attempt: nat, maxRetries: nat, limited: bool, before: seq<Outcome>)
    returns (outcomes: seq<Outcome>, refused: bool)
    requires attempt == |before| <= maxRetries && Before(start, t, before, write, limited)
    ensures var r := Attempts(a, t, write, attempt, maxRetries, limited);
      && Retried(outcomes, maxRetries + 1, refused, r.result) && (refused ==> limited)
      && OuterRun(start, r, outcomes, write, limited, refused)
    decreases maxRetries - attempt, 1
  {
    var c := InvokeRun(a, t, write);
    var now := before + [c.result];
    AttemptMade(a, start, t, before, write, limited);
    if attempt < maxRetries && NoAnswer(c.result) {
      RetriableStill(before, c.result);
      outcomes, refused := AfterPause(a, start, c.trace, write, attempt, maxRetries, limited, now);
    } else {
      outcomes, refused := now, false;
    }
  }

  lemma {:induction false} AfterPause(
    a: Oracle, start: seq<Ev>, t: seq<Ev>, write: bool, attempt: nat, maxRetries: nat, limited: bool, now: seq<Outcome>)
    returns (outcomes: seq<Outcome>, refused: bool)
    requires attempt + 1 == |now| <= maxRetries && (forall k :: 0 <= k < |now| ==> NoAnswer(now[k]))
    requires Outer(t) == start + Rounds(now, write, limited)
    ensures var t1 := t + [Slept];
      var r := if !limited then Attempts(a, t1, write, attempt + 1, maxRetries, limited)
               else if !a(|t1|).acquired then Run(t1 + [Acquired(false)], OtherError)
               else Attempts(a, t1 + [Acquired(true)], write, attempt + 1, maxRetries, limited);
      && Retried(outcomes, maxRetries + 1, refused, r.result) && (refused ==> limited)
      && OuterRun(start, r, outcomes, write, limited, refused)
    decreases maxRetries - attempt, 0
  {
    var t1 := t + [Slept];
    PauseMade(start, t, now, write);
    if !limited {
      outcomes, refused := AttemptsExactly(a, start, t1, write, attempt + 1, maxRetries, limited, now);
    } else if a(|t1|).acquired {
      outcomes, refused := AttemptsExactly(a, start, t1 + [Acquired(true)], write, attempt + 1, maxRetries, limited, now);
    } else {
      TokenRefused(start, t, now, write, limited);
      outcomes, refused := now, true;
    }
  }

  lemma NextRound(before: seq<Outcome>, o: Outcome, write: bool, limited: bool)
    ensures Rounds(before + [o], write, limited) ==
      Rounds(before, write, limited) + (if before == [] then [] else Pause(limited)) + Invocation(write, o)
  {
    assert (before + [o])[..|before|] == before;
  }

  /** `withRetry` invokes its call again exactly after a timeout or an unreachable CCU, as long as attempts are
      left (a script or a program run has one), each time after the delay and with a token of its own when calls
      are limited; it returns the last outcome, or fails when that token is refused. */
  lemma RetriesExactly(a: Oracle, t: seq<Ev>, m: Rpc, write: bool, maxRetries: nat, limited: bool)
    returns (outcomes: seq<Outcome>, refused: bool)
    ensures var r := WithRetryRun(a, t, m, write, maxRetries, limited);
      && Retried(outcomes, if m.ProgramExecute? || m.RunScript? then 1 else maxRetries + 1, refused, r.result)
      && (refused ==> limited)
      && OuterRun(Outer(t), r, outcomes, write, limited, refused)
  {
    if NonIdempotent(m) {
      InvokeOuter(a, t, write);
      outcomes, refused := [InvokeRun(a, t, write).result], false;
    } else {
      outcomes, refused := AttemptsExactly(a, Outer(t), t, write, 0, maxRetries, limited, []);
    }
  }

  // ---------------------------------------------------------------- the write tools

  /** After `start`: no token and no write, or a token and a write of at most `limit` invocations, each
      further one paid for. */
  ghost predicate WritesOnce(
    start: seq<Ev>, r: Run, token: bool, limit: nat, outcomes: seq<Outcome>, refused: bool)
  {
    if !token then Outer(r.trace) == start + [Acquired(false)] && r.result == OtherError
    else Retried(outcomes, limit, refused, r.result) && OuterRun(start + [Acquired(true)], r, outcomes, true, true, refused)
  }

  lemma WriteExactly(a: Oracle, t: seq<Ev>, m: Rpc, safe: bool) returns (outcomes: seq<Outcome>, refused: bool)
    requires m.SetValueRpc? || m.PutParamsetRpc?
    ensures WritesOnce(Outer(t), WriteRun(a, t, m, safe), a(|t|).acquired, if safe then 2 else 1, outcomes, refused)
  {
    var t1 := t + [Acquired(a(|t|).acquired)];
    OuterAppend(t, t1[|t|]);
    outcomes, refused := [], false;
    if a(|t|).acquired {
      if safe {
        outcomes, refused := RetriesExactly(a, t1, m, true, MAX_RETRIES, true);
      } else {
        InvokeOuter(a, t1, true);
        outcomes := [InvokeRun(a, t1, true).result];
      }
    }
  }

  /** set_value reads the old value if it gets a token for that, and however that ends, writes: once, or twice
      if that is safe and the first try timed out; it returns how the last try ended. */
  lemma SetValueExactly(a: Oracle, safe: bool)
    returns (read: seq<Outcome>, token: bool, outcomes: seq<Outcome>, refused: bool)
    ensures |read| <= 1 && (read != [] <==> a(0).acquired)
    ensures WritesOnce(if read == [] then [Acquired(false)] else [Acquired(true)] + Invocation(false, read[0]),
                       SetValueRun(a, [], safe), token, if safe then 2 else 1, outcomes, refused)
  {
    var t0: seq<Ev> := [] + [Acquired(a(0).acquired)];
    OuterAppend([], Acquired(a(0).acquired));
    var t1 := t0;
    read := [];
    if a(0).acquired {
      InvokeOuter(a, t0, false);
      t1 := InvokeRun(a, t0, false).trace;
      read := [InvokeRun(a, t0, false).result];
    }
    token := a(|t1|).acquired;
    outcomes, refused := WriteExactly(a, t1, SetValueRpc, safe);
  }

  /** put_paramset refuses an empty set unsent, and else writes in the same way. */
  lemma PutParamsetExactly(a: Oracle, empty: bool, safe: bool) returns (outcomes: seq<Outcome>, refused: bool)
    ensures empty ==> PutParamsetRun(a, [], empty, safe) == Run([], OtherError)
    ensures !empty ==>
      WritesOnce([], PutParamsetRun(a, [], empty, safe), a(0).acquired, if safe then 2 else 1, outcomes, refused)
  {
    outcomes, refused := WriteExactly(a, [], PutParamsetRpc, safe);
  }
}
