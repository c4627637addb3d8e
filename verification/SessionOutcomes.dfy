/**
 What a caller of the session manager of src/ccu/session.ts gets, read off the events
 of a run: how every `call` ends, when it sends and when it waits.
 */
module SessionOutcomes {
  import opened Wrappers
  import opened SessionProtocol
  import opened SessionSafety

  // ---------------------------------------------------------------- how a call ends

  /** The login that call `c` waits for has ended, and not in failure. */
  predicate LoginWell(s: State, c: nat)
    requires c in s.env.calls && CallReady(s, s.env.calls[c].stage)
  {
    s.env.finished[s.env.calls[c].stage.login].LoginOk?
  }

  /** This event ends call `c` with result `r`. */
  predicate EndsCall(s: State, e: Event, c: nat, r: CallResult)
    requires Enabled(s, e)
  {
    match r
    case Answered => e == ReplyCall(c, CallOk)
    case Failed => e == ReplyCall(c, CallOther) || (e == ReplyCall(c, CallAuth) && s.env.calls[c].stage.Resent?)
    case LoginRejected => e == ResumeCall(c) && !LoginWell(s, c)
    case NoActiveSession => e == ResumeCall(c) && LoginWell(s, c) && s.sessionId == None
    case Denied(used, l) =>
      e == ResumeCall(c) && LoginWell(s, c) && s.env.calls[c].stage == AwaitingRelogin(used, l) && s.sessionId == Some(used)
  }

  /** With this event call `c` sends a request, which carries the held id. */
  predicate SendsNow(s: State, e: Event, c: nat)
    requires Enabled(s, e)
  {
    && s.sessionId.Some?
    && (e == StartCall(c) ||
        (e == ResumeCall(c) && LoginWell(s, c) &&
         (s.env.calls[c].stage.AwaitingRelogin? ==> s.env.calls[c].stage.used != s.sessionId.value)))
  }

  /** With this event call `c` starts to wait for a login in flight. */
  predicate WaitsNow(s: State, e: Event, c: nat)
    requires Enabled(s, e)
  {
    (e == StartCall(c) && s.sessionId == None) || (e == ReplyCall(c, CallAuth) && s.env.calls[c].stage.Sent?)
  }

  predicate IsDone(s: State, c: nat, r: CallResult) {
    c in s.env.calls && s.env.calls[c].stage == Done(r)
  }

  function Sends(s: State, c: nat): seq<Sid> {
    if c in s.env.calls then s.env.calls[c].sends else []
  }

  predicate Waits(s: State, c: nat) {
    && c in s.env.calls
    && var stage := s.env.calls[c].stage;
       (stage.AwaitingFirstLogin? || stage.AwaitingRelogin?) && stage.login in s.env.logins
  }

  predicate CallEvent(e: Event, c: nat) {
    e == StartCall(c) || e == ResumeCall(c) || (e.ReplyCall? && e.c == c)
  }

  /** Call `c` is as before. */
  predicate SameCall(s: State, t: State, c: nat) {
    (c in s.env.calls <==> c in t.env.calls) && (c in s.env.calls ==> t.env.calls[c] == s.env.calls[c])
  }

  lemma LoginCalls(s: State)
    ensures Login(s).0.env.calls == s.env.calls && Login(s).0.sessionId == s.sessionId
  {
  }

  lemma OtherStart(s: State, b: nat, c: nat)
    requires b != c
    ensures SameCall(s, BeginCall(s, b), c)
  {
    LoginCalls(s);
  }

  lemma OtherReply(s: State, b: nat, reply: CallReply, c: nat)
    requires b in s.env.calls && b != c
    ensures SameCall(s, CallContinue(s, b, reply), c)
  {
    LoginCalls(s);
  }

  lemma OtherResume(s: State, b: nat, c: nat)
    requires b in s.env.calls && b != c
    ensures SameCall(s, CallAfterLogin(s, b), c)
  {
  }

  lemma OtherCallEvent(s: State, e: Event, c: nat)
    requires Enabled(s, e) && (e.StartCall? || e.ReplyCall? || e.ResumeCall?) && e.c != c
    ensures SameCall(s, Step(s, e), c)
  {
    match e
    case StartCall(b) => OtherStart(s, b, c);
    case ReplyCall(b, reply) => OtherReply(s, b, reply, c);
    case ResumeCall(b) => OtherResume(s, b, c);
  }

  lemma ReplyLoginCalls(s: State, l: nat, reply: LoginReply)
    requires l in s.env.logins
    ensures LoginContinue(s, l, s.env.logins[l], reply).env.calls == s.env.calls
  {
    match (s.env.logins[l], reply)
    case (RenewingStored(x, _), Accepted) => HoldCalls(s, l, x, Settled(LoginOk(Some(x))));
    case (LoggingIn(_, _), Issued(x)) => HoldCalls(s, l, x, MakingDir(s.env.turn));
    case _ =>
  }

  lemma HoldCalls(s: State, l: nat, x: Sid, stage: LoginStage)
    ensures SetLogin(HoldSession(s, l, x), l, stage).env.calls == s.env.calls
  {
  }

  lemma StopCalls(s: State)
    ensures StopRenewal(s).env.calls == s.env.calls && StopRenewal(s.(closed := true)).env.calls == s.env.calls
  {
  }

  lemma TailCalls(s: State, o: nat)
    ensures LogoutTail(s, o).env.calls == s.env.calls
  {
  }

  lemma LogoutCalls(s: State, e: Event)
    requires Enabled(s, e) && (e.StartLogout? || e.ResumeLogout? || e.ReplyLogout? || e.FileCleared? || e.Destroy?)
    ensures Step(s, e).env.calls == s.env.calls
  {
    StopCalls(s);
    if e.StartLogout? || e.ResumeLogout? {
      TailCalls(StopRenewal(s), e.o);
      TailCalls(StopRenewal(s.(closed := true)), e.o);
    }
  }

  lemma FinallyCalls(s: State, h: nat)
    ensures CallbackFinally(s, h).env.calls == s.env.calls
  {
  }

  lemma ContinueCalls(s: State, h: nat, ok: bool)
    ensures CallbackContinue(s, h, ok).env.calls == s.env.calls
  {
    LoginCalls(s);
  }

  lemma CallbackCalls(s: State, e: Event)
    requires Enabled(s, e) && (e.TimerFires? || e.ReplyCallback? || e.ResumeCallback? || e.FinallyCallback?)
    ensures Step(s, e).env.calls == s.env.calls
  {
    match e
    case TimerFires(h) =>
    case ReplyCallback(h, ok) => ContinueCalls(s, h, ok);
    case ResumeCallback(h) =>
    case FinallyCallback(h) => FinallyCalls(s, h);
  }

  lemma OtherCalls(s: State, e: Event)
    requires Enabled(s, e) && (e.StartLogin? || e.FinallyLogin? || e.NextTurn?)
    ensures Step(s, e).env.calls == s.env.calls
  {
    LoginCalls(s);
  }

  lemma CallUntouched(s: State, e: Event, c: nat)
    requires Enabled(s, e) && !CallEvent(e, c)
    ensures SameCall(s, Step(s, e), c)
  {
    if e.StartCall? || e.ReplyCall? || e.ResumeCall? {
      OtherCallEvent(s, e, c);
    } else if e.StartLogout? || e.ResumeLogout? || e.ReplyLogout? || e.FileCleared? || e.Destroy? {
      LogoutCalls(s, e);
    } else if e.ReplyLogin? {
      ReplyLoginCalls(s, e.l, e.loginReply);
    } else if e.StartLogin? || e.FinallyLogin? || e.NextTurn? {
      OtherCalls(s, e);
    } else {
      CallbackCalls(s, e);
    }
  }

  /** Everything that happens to call `c` in a step, as far as result `r` is concerned. */
  ghost predicate CallGoesOn(s: State, e: Event, t: State, c: nat, r: CallResult)
    requires Enabled(s, e)
  {
    && (IsDone(t, c, r) <==> IsDone(s, c, r) || EndsCall(s, e, c, r))
    && Sends(t, c) == Sends(s, c) + (if SendsNow(s, e, c) then [s.sessionId.value] else [])
    && (WaitsNow(s, e, c) ==> Waits(t, c))
  }

  lemma StartSends(s: State, c: nat, r: CallResult)
    requires c !in s.env.calls && s.sessionId.Some?
    ensures CallGoesOn(s, StartCall(c), BeginCall(s, c), c, r)
  {
  }

  lemma LoginWaited(s: State)
    requires Inv(s)
    ensures Login(s).1 in Login(s).0.env.logins && Login(s).0.env.calls == s.env.calls
  {
    LoginInv(s);
  }

  lemma StartWaits(s: State, c: nat, r: CallResult)
    requires Inv(s) && c !in s.env.calls && s.sessionId == None
    ensures CallGoesOn(s, StartCall(c), BeginCall(s, c), c, r)
  {
    LoginWaited(s);
  }

  lemma StartGoesOn(s: State, c: nat, r: CallResult)
    requires Inv(s) && c !in s.env.calls
    ensures CallGoesOn(s, StartCall(c), BeginCall(s, c), c, r)
  {
    if s.sessionId.Some? { StartSends(s, c, r); } else { StartWaits(s, c, r); }
  }

  lemma ReplyGoesOn(s: State, c: nat, reply: CallReply, r: CallResult)
    requires Inv(s) && Enabled(s, ReplyCall(c, reply))
    ensures CallGoesOn(s, ReplyCall(c, reply), CallContinue(s, c, reply), c, r)
  {
    LoginInv(s);
  }

  lemma ResumeGoesOn(s: State, c: nat, r: CallResult)
    requires Enabled(s, ResumeCall(c))
    ensures CallGoesOn(s, ResumeCall(c), CallAfterLogin(s, c), c, r)
  {
  }

  lemma UntouchedGoesOn(s: State, e: Event, t: State, c: nat, r: CallResult)
    requires Enabled(s, e) && !CallEvent(e, c) && SameCall(s, t, c)
    ensures CallGoesOn(s, e, t, c, r)
  {
  }

  lemma StepGoesOn(s: State, e: Event, c: nat, r: CallResult)
    requires Inv(s) && Enabled(s, e)
    ensures CallGoesOn(s, e, Step(s, e), c, r)
  {
    if !CallEvent(e, c) {
      CallUntouched(s, e, c);
      UntouchedGoesOn(s, e, Step(s, e), c, r);
    } else {
      CallEventGoesOn(s, e, c, r);
    }
  }

  lemma CallEventGoesOn(s: State, e: Event, c: nat, r: CallResult)
    requires Inv(s) && Enabled(s, e) && CallEvent(e, c)
    ensures CallGoesOn(s, e, Step(s, e), c, r)
  {
    match e
    case StartCall(_) => StartGoesOn(s, c, r);
    case ReplyCall(_, reply) => ReplyGoesOn(s, c, reply, r);
    case ResumeCall(_) => ResumeGoesOn(s, c, r);
  }

  ghost predicate EndedAt(ss: seq<State>, es: seq<Event>, k: int, c: nat, r: CallResult) {
    0 <= k < |es| && k < |ss| && Enabled(ss[k], es[k]) && EndsCall(ss[k], es[k], c, r)
  }

  /** In every run a call has ended in a certain way if and only if the event that ends it so has occurred:
      answered by the CCU; failed by an error that is no AUTH, or by AUTH on the second request; rejected
      with the login it awaited; without session after that login; or denied. */
  lemma {:induction false} CallEndsExactly(ss: seq<State>, es: seq<Event>, i: nat, c: nat, r: CallResult)
    requires IsRun(ss, es) && i < |ss|
    ensures IsDone(ss[i], c, r) <==> exists k :: k < i && EndedAt(ss, es, k, c, r)
    decreases i
  {
    if i > 0 {
      CallEndsExactly(ss, es, i - 1, c, r);
      RunInv(ss, es, i - 1);
      assert Enabled(ss[i - 1], es[i - 1]) && ss[i] == Step(ss[i - 1], es[i - 1]);
      StepGoesOn(ss[i - 1], es[i - 1], c, r);
      if EndsCall(ss[i - 1], es[i - 1], c, r) {
        assert EndedAt(ss, es, i - 1, c, r);
      }
    }
  }

  /** A call that can send does so, with the held id; one that cannot waits for a login in flight. */
  lemma CallSendsOrWaits(ss: seq<State>, es: seq<Event>, i: nat, c: nat)
    requires IsRun(ss, es) && i < |es|
    ensures Enabled(ss[i], es[i])
    ensures Sends(ss[i + 1], c) == Sends(ss[i], c) + (if SendsNow(ss[i], es[i], c) then [ss[i].sessionId.value] else [])
    ensures WaitsNow(ss[i], es[i], c) ==> Waits(ss[i + 1], c)
  {
    RunInv(ss, es, i);
    assert Enabled(ss[i], es[i]) && ss[i + 1] == Step(ss[i], es[i]);
    StepGoesOn(ss[i], es[i], c, Answered);
  }

  /** After AUTH on its first request a call waits for the login, or has gone on from there. */
  ghost predicate AfterAuth(s: State, c: nat, x: Sid) {
    && c in s.env.calls
    && var call := s.env.calls[c];
       (call.stage.AwaitingRelogin? && call.stage.used == x && call.sends == [x]) || call.stage.Resent? || call.stage.Done?
  }

  lemma AfterAuthStep(s: State, e: Event, c: nat, x: Sid)
    requires Enabled(s, e) && AfterAuth(s, c, x)
    ensures AfterAuth(Step(s, e), c, x)
  {
    if CallEvent(e, c) {
      if e.ResumeCall? { ResumedAfterAuth(s, c, x); } else { RepliedAfterAuth(s, e, c, x); }
    } else {
      CallUntouched(s, e, c);
    }
  }

  lemma ResumedAfterAuth(s: State, c: nat, x: Sid)
    requires Enabled(s, ResumeCall(c)) && AfterAuth(s, c, x)
    ensures AfterAuth(CallAfterLogin(s, c), c, x)
  {
  }

  lemma RepliedAfterAuth(s: State, e: Event, c: nat, x: Sid)
    requires Enabled(s, e) && AfterAuth(s, c, x) && e.ReplyCall? && e.c == c
    ensures AfterAuth(CallContinue(s, c, e.callReply), c, x)
  {
  }

  lemma AuthStep(s: State, c: nat)
    requires Inv(s) && Enabled(s, ReplyCall(c, CallAuth)) && s.env.calls[c].stage.Sent?
    ensures AfterAuth(CallContinue(s, c, CallAuth), c, s.env.calls[c].stage.sid)
  {
    assert CallKnows(s, s.env.calls[c]);
    LoginCalls(s);
  }

  lemma {:induction false} StaysAfterAuth(ss: seq<State>, es: seq<Event>, k: nat, m: nat, c: nat, x: Sid)
    requires IsRun(ss, es) && k < m < |ss| && es[k] == ReplyCall(c, CallAuth)
    requires Enabled(ss[k], es[k]) && ss[k].env.calls[c].stage.Sent? && ss[k].env.calls[c].stage.sid == x
    ensures AfterAuth(ss[m], c, x)
    decreases m
  {
    assert Enabled(ss[m - 1], es[m - 1]) && ss[m] == Step(ss[m - 1], es[m - 1]);
    if m == k + 1 {
      RunInv(ss, es, k);
      AuthStep(ss[k], c);
    } else {
      StaysAfterAuth(ss, es, k, m - 1, c, x);
      AfterAuthStep(ss[m - 1], es[m - 1], c, x);
    }
  }

  /** AUTH on the first request, then a login that ended well and left another id held when the call
      resumes: the call sends a second request, with that id. */
  lemma SecondRequestAfterAuth(ss: seq<State>, es: seq<Event>, k: nat, m: nat, c: nat, x: Sid, y: Sid)
    requires IsRun(ss, es) && k < m < |es| && es[k] == ReplyCall(c, CallAuth) && es[m] == ResumeCall(c)
    requires Enabled(ss[k], es[k]) && ss[k].env.calls[c].stage.Sent? && ss[k].env.calls[c].stage.sid == x
    requires Enabled(ss[m], es[m]) && LoginWell(ss[m], c) && ss[m].sessionId == Some(y) && y != x
    ensures c in ss[m + 1].env.calls && ss[m + 1].env.calls[c] == Call(Resent(x, y, ss[m].env.turn), [x, y])
  {
    StaysAfterAuth(ss, es, k, m, c, x);
    assert ss[m + 1] == Step(ss[m], es[m]);
    Resends(ss[m], c, x, y);
  }

  lemma Resends(s: State, c: nat, x: Sid, y: Sid)
    requires Enabled(s, ResumeCall(c)) && AfterAuth(s, c, x) && LoginWell(s, c) && s.sessionId == Some(y) && y != x
    ensures var t := CallAfterLogin(s, c);
      c in t.env.calls && t.env.calls[c] == Call(Resent(x, y, s.env.turn), [x, y])
  {
    assert [x] + [y] == [x, y];
  }
}
