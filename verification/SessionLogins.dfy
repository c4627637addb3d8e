/**
 How every login and every logout of src/ccu/session.ts goes on and ends, read off the
 events of a run; what a fired renewal timer does; and what becomes of the session file.
 */
module SessionLogins {
  import opened Wrappers
  import opened SessionProtocol
  import opened SessionSafety
  import opened SessionOutcomes

  // ---------------------------------------------------------------- when a login fails

  /** The event makes `login()` start a new `doLogin`. */
  predicate StartsLogin(s: State, e: Event)
    requires Enabled(s, e)
  {
    && s.loginPromise == None
    && (|| e.StartLogin? || (e.StartCall? && s.sessionId == None)
        || (e.ReplyCall? && e.callReply.CallAuth? && s.env.calls[e.c].stage.Sent?)
        || (e.ReplyCallback? && !e.ok))
  }

  /** The CCU turns the login away: an error that is no "too many sessions", or that one for the fourth time. */
  predicate TurnedAway(stage: LoginStage, reply: LoginReply) {
    stage.LoggingIn? && (reply.Refused? || (reply.TooManySessions? && stage.attempt >= 3))
  }

  /** The login would send `Session.login` now. */
  predicate WantsToSend(stage: LoginStage, reply: LoginReply) {
    || (stage.ReadingFile? && reply.FileMiss?) || (stage.RenewingStored? && reply.Refused?)
    || (stage.BackingOff? && reply.Elapsed?)
  }

  predicate FailsNow(s: State, e: Event, l: nat)
    requires Enabled(s, e)
  {
    || (s.closed && StartsLogin(s, e) && l == s.env.nextLogin)
    || (e.ReplyLogin? && e.l == l &&
        (TurnedAway(s.env.logins[l], e.loginReply) || (s.closed && WantsToSend(s.env.logins[l], e.loginReply))))
  }

  predicate HasFailed(s: State, l: nat) {
    || (l in s.env.logins && s.env.logins[l] == Settled(LoginFailed))
    || (l in s.env.finished && s.env.finished[l] == LoginFailed)
  }

  /** The logins are as before. */
  ghost predicate SameLogins(s: State, t: State) {
    t.env.logins == s.env.logins && t.env.finished == s.env.finished
  }

  lemma StartedFails(s: State, l: nat)
    requires SingleFlight(s)
    ensures HasFailed(Login(s).0, l) <==> HasFailed(s, l) || (s.closed && s.loginPromise == None && l == s.env.nextLogin)
  {
  }

  lemma ReplyFails(s: State, k: nat, reply: LoginReply, l: nat)
    requires Enabled(s, ReplyLogin(k, reply))
    ensures HasFailed(LoginContinue(s, k, s.env.logins[k], reply), l) <==>
              HasFailed(s, l) || FailsNow(s, ReplyLogin(k, reply), l)
  {
    var t := LoginContinue(s, k, s.env.logins[k], reply);
    ReplyStages(s, k, reply);
    ReplyFailsItself(s, k, reply);
    assert forall m :: m != k ==> (m in t.env.logins <==> m in s.env.logins);
  }

  /** Login `k` is at `stage` now, and nothing else happened to the logins. */
  predicate OnlyMoved(s: State, t: State, k: nat) {
    k in t.env.logins && t.env.logins == s.env.logins[k := t.env.logins[k]] && t.env.finished == s.env.finished
  }

  /** Only the login that is answered moves on. */
  lemma ReplyStages(s: State, k: nat, reply: LoginReply)
    requires Enabled(s, ReplyLogin(k, reply))
    ensures OnlyMoved(s, LoginContinue(s, k, s.env.logins[k], reply), k)
  {
    var stage := s.env.logins[k];
    if stage.RenewingHeld? || stage.RenewingStored? {
      RenewalStages(s, k, reply);
    } else if stage.LoggingIn? {
      AttemptStages(s, k, reply);
    } else {
      FileStages(s, k, reply);
    }
  }

  lemma RenewalStages(s: State, k: nat, reply: LoginReply)
    requires Enabled(s, ReplyLogin(k, reply)) && (s.env.logins[k].RenewingHeld? || s.env.logins[k].RenewingStored?)
    ensures OnlyMoved(s, LoginContinue(s, k, s.env.logins[k], reply), k)
  {
    if s.env.logins[k].RenewingStored? && reply.Accepted? {
      HoldLogins(s, k, s.env.logins[k].sid, Settled(LoginOk(Some(s.env.logins[k].sid))));
    }
  }

  lemma AttemptStages(s: State, k: nat, reply: LoginReply)
    requires Enabled(s, ReplyLogin(k, reply)) && s.env.logins[k].LoggingIn?
    ensures OnlyMoved(s, LoginContinue(s, k, s.env.logins[k], reply), k)
  {
    if reply.Issued? { HoldLogins(s, k, reply.sid, MakingDir(s.env.turn)); }
  }

  lemma FileStages(s: State, k: nat, reply: LoginReply)
    requires Enabled(s, ReplyLogin(k, reply))
    requires s.env.logins[k].ReadingFile? || s.env.logins[k].BackingOff? || s.env.logins[k].MakingDir? || s.env.logins[k].WritingFile?
    ensures OnlyMoved(s, LoginContinue(s, k, s.env.logins[k], reply), k)
  {
  }

  lemma HoldLogins(s: State, l: nat, x: Sid, stage: LoginStage)
    ensures var t := SetLogin(HoldSession(s, l, x), l, stage);
      && t.env.logins == s.env.logins[l := stage] && t.env.finished == s.env.finished && t.sessionId == Some(x)
  {
  }

  lemma ReplyFailsItself(s: State, k: nat, reply: LoginReply)
    requires Enabled(s, ReplyLogin(k, reply))
    ensures var t := LoginContinue(s, k, s.env.logins[k], reply);
      && k in t.env.logins
      && (t.env.logins[k] == Settled(LoginFailed) <==>
            TurnedAway(s.env.logins[k], reply) || (s.closed && WantsToSend(s.env.logins[k], reply)))
  {
    match (s.env.logins[k], reply)
    case (RenewingStored(x, _), Accepted) => HoldLogins(s, k, x, Settled(LoginOk(Some(x))));
    case (LoggingIn(_, _), Issued(x)) => HoldLogins(s, k, x, MakingDir(s.env.turn));
    case _ =>
  }

  lemma FinallyFails(s: State, k: nat, l: nat)
    requires SingleFlight(s) && Enabled(s, FinallyLogin(k))
    ensures HasFailed(LoginFinally(s, k, s.env.logins[k].outcome), l) <==> HasFailed(s, l)
  {
  }

  lemma LogoutLogins(s: State, e: Event)
    requires Enabled(s, e) && (e.StartLogout? || e.ResumeLogout? || e.ReplyLogout? || e.FileCleared? || e.Destroy? || e.NextTurn?)
    ensures SameLogins(s, Step(s, e))
  {
    StopLogins(s);
    if e.StartLogout? || e.ResumeLogout? {
      TailLogins(StopRenewal(s), e.o);
      TailLogins(StopRenewal(s.(closed := true)), e.o);
    }
  }

  lemma StopLogins(s: State)
    ensures SameLogins(s, StopRenewal(s)) && SameLogins(s, StopRenewal(s.(closed := true)))
  {
  }

  lemma TailLogins(s: State, o: nat)
    ensures SameLogins(s, LogoutTail(s, o))
  {
  }

  /** What a call or callback event does to the logins: nothing, or what `login()` does. */
  lemma CallLogins(s: State, e: Event)
    requires Enabled(s, e) && (e.StartCall? || e.ReplyCall? || e.ResumeCall?)
    ensures SameLogins(if StartsLogin(s, e) then Login(s).0 else s, Step(s, e))
  {
    match e
    case StartCall(c) => StartCallLogins(s, c);
    case ReplyCall(c, reply) => ReplyCallLogins(s, c, reply);
    case ResumeCall(c) => ResumeCallLogins(s, c);
  }

  lemma JoinedLogins(s: State)
    requires s.loginPromise.Some?
    ensures Login(s).0 == s
  {
  }

  lemma StartCallLogins(s: State, c: nat)
    ensures SameLogins(if s.loginPromise == None && s.sessionId == None then Login(s).0 else s, BeginCall(s, c))
  {
  }

  lemma ReplyCallLogins(s: State, c: nat, reply: CallReply)
    requires c in s.env.calls
    ensures SameLogins(
        if s.loginPromise == None && reply.CallAuth? && s.env.calls[c].stage.Sent? then Login(s).0 else s, CallContinue(s, c, reply))
  {
  }

  lemma ResumeCallLogins(s: State, c: nat)
    requires c in s.env.calls
    ensures SameLogins(s, CallAfterLogin(s, c))
  {
  }

  lemma CallbackLogins(s: State, e: Event)
    requires Enabled(s, e) && (e.TimerFires? || e.ReplyCallback? || e.ResumeCallback? || e.FinallyCallback?)
    ensures SameLogins(if StartsLogin(s, e) then Login(s).0 else s, Step(s, e))
  {
    match e
    case TimerFires(h) =>
    case ReplyCallback(h, ok) => ContinueLogins(s, h, ok);
    case ResumeCallback(h) =>
    case FinallyCallback(h) => FinallyLogins(s, h);
  }

  lemma ContinueLogins(s: State, h: nat, ok: bool)
    ensures SameLogins(if !ok then Login(s).0 else s, CallbackContinue(s, h, ok))
    ensures s.loginPromise.Some? ==> Login(s).0 == s
  {
  }

  lemma FinallyLogins(s: State, h: nat)
    ensures SameLogins(s, CallbackFinally(s, h))
  {
  }

  lemma SameFails(s: State, t: State, l: nat)
    requires SameLogins(s, t)
    ensures HasFailed(t, l) <==> HasFailed(s, l)
  {
  }

  lemma StepFails(s: State, e: Event, l: nat)
    requires SingleFlight(s) && Enabled(s, e)
    ensures HasFailed(Step(s, e), l) <==> HasFailed(s, l) || FailsNow(s, e, l)
  {
    if e.ReplyLogin? {
      ReplyFails(s, e.l, e.loginReply, l);
    } else if e.FinallyLogin? {
      FinallyFails(s, e.l, l);
    } else if e.StartLogout? || e.ResumeLogout? || e.ReplyLogout? || e.FileCleared? || e.Destroy? || e.NextTurn? {
      LogoutLogins(s, e);
      SameFails(s, Step(s, e), l);
    } else {
      MaybeStarts(s, e);
      StartedFails(s, l);
      SameFails(if StartsLogin(s, e) then Login(s).0 else s, Step(s, e), l);
    }
  }

  lemma MaybeStarts(s: State, e: Event)
    requires Enabled(s, e)
    requires e.StartLogin? || e.StartCall? || e.ReplyCall? || e.ResumeCall?
          || e.TimerFires? || e.ReplyCallback? || e.ResumeCallback? || e.FinallyCallback?
    ensures SameLogins(if StartsLogin(s, e) then Login(s).0 else s, Step(s, e))
  {
    if e.StartLogin? {
      if s.loginPromise.Some? { JoinedLogins(s); }
    } else if e.StartCall? || e.ReplyCall? || e.ResumeCall? {
      CallLogins(s, e);
    } else {
      CallbackLogins(s, e);
    }
  }

  ghost predicate FailedAt(ss: seq<State>, es: seq<Event>, k: int, l: nat) {
    0 <= k < |es| && k < |ss| && Enabled(ss[k], es[k]) && FailsNow(ss[k], es[k], l)
  }

  /** In every run a login has failed if and only if the CCU turned it away, or the manager was closed when
      it began or wanted to send `Session.login`. */
  lemma {:induction false} LoginFailsExactly(ss: seq<State>, es: seq<Event>, i: nat, l: nat)
    requires IsRun(ss, es) && i < |ss|
    ensures HasFailed(ss[i], l) <==> exists k :: k < i && FailedAt(ss, es, k, l)
    decreases i
  {
    if i > 0 {
      LoginFailsExactly(ss, es, i - 1, l);
      RunInv(ss, es, i - 1);
      assert Enabled(ss[i - 1], es[i - 1]) && ss[i] == Step(ss[i - 1], es[i - 1]);
      StepFails(ss[i - 1], es[i - 1], l);
      if FailsNow(ss[i - 1], es[i - 1], l) {
        assert FailedAt(ss, es, i - 1, l);
      }
    }
  }

  // ---------------------------------------------------------------- how a login goes on

  /** An open manager that starts a login renews the id it holds, or looks at the session file. */
  lemma OpenLoginStarts(ss: seq<State>, es: seq<Event>, i: nat)
    requires IsRun(ss, es) && i < |es| && Enabled(ss[i], es[i]) && StartsLogin(ss[i], es[i]) && !ss[i].closed
    ensures var l, t := ss[i].env.nextLogin, ss[i + 1];
      && l in t.env.logins
      && t.env.logins[l] == (if ss[i].sessionId.Some? then RenewingHeld(ss[i].sessionId.value, ss[i].env.turn)
                             else ReadingFile(ss[i].env.turn))
  {
    assert ss[i + 1] == Step(ss[i], es[i]);
    MaybeStarts(ss[i], es[i]);
    OpenStage(ss[i]);
  }

  lemma OpenStage(s: State)
    requires s.loginPromise == None && !s.closed
    ensures s.env.nextLogin in Login(s).0.env.logins
    ensures Login(s).0.env.logins[s.env.nextLogin] ==
              if s.sessionId.Some? then RenewingHeld(s.sessionId.value, s.env.turn) else ReadingFile(s.env.turn)
  {
  }

  /** The stage an answered login of an open manager is in next. */
  ghost predicate NextStage(s: State, stage: LoginStage, reply: LoginReply, t: State, next: LoginStage) {
    match stage
    case RenewingHeld(x, _) =>
      if reply.Accepted? then next == Settled(LoginOk(Some(x))) && t.sessionId == Some(x)
      else next == ReadingFile(s.env.turn) && t.sessionId == None
    case ReadingFile(_) =>
      if reply.FileHit? then s.env.file.Some? && next == RenewingStored(s.env.file.value, s.env.turn)
      else next == LoggingIn(0, s.env.turn)
    case RenewingStored(x, _) =>
      if reply.Accepted? then next == Settled(LoginOk(Some(x))) && t.sessionId == Some(x)
      else next == LoggingIn(0, s.env.turn)
    case LoggingIn(n, _) =>
      && (reply.Issued? ==> next == MakingDir(s.env.turn) && t.sessionId == Some(reply.sid))
      && (reply.TooManySessions? && n < 3 ==> next == BackingOff(n, s.env.turn))
    case BackingOff(n, _) => next == LoggingIn(n + 1, s.env.turn)
    case MakingDir(_) =>
      && t.sessionId.Some?
      && next == if reply == IoDone(true) then WritingFile(t.sessionId, s.env.turn) else Settled(LoginOk(t.sessionId))
    case WritingFile(_, _) =>
      && t.sessionId.Some? && next == Settled(LoginOk(t.sessionId))
      && t.env.file == if reply == IoDone(true) then t.sessionId else s.env.file
    case Settled(_) => true
  }

  lemma AnswerGoesOn(s: State, l: nat, reply: LoginReply)
    requires Inv(s) && !s.closed && Enabled(s, ReplyLogin(l, reply))
    ensures var t := LoginContinue(s, l, s.env.logins[l], reply);
      l in t.env.logins && NextStage(s, s.env.logins[l], reply, t, t.env.logins[l])
  {
    assert LoginKnows(s, l, s.env.logins[l]);
    match (s.env.logins[l], reply)
    case (RenewingStored(x, _), Accepted) => HoldLogins(s, l, x, Settled(LoginOk(Some(x))));
    case (LoggingIn(_, _), Issued(x)) => HoldLogins(s, l, x, MakingDir(s.env.turn));
    case _ =>
  }

  /** In every run: a refused id sends an open login on to the next way in, each "too many sessions" short
      of the fourth to a back-off and then to another attempt, and what the CCU grants is held and saved. */
  lemma OpenLoginGoesOn(ss: seq<State>, es: seq<Event>, i: nat)
    requires IsRun(ss, es) && i < |es| && es[i].ReplyLogin? && !ss[i].closed
    ensures var l := es[i].l;
      && l in ss[i].env.logins && l in ss[i + 1].env.logins
      && NextStage(ss[i], ss[i].env.logins[l], es[i].loginReply, ss[i + 1], ss[i + 1].env.logins[l])
  {
    RunInv(ss, es, i);
    assert Enabled(ss[i], es[i]) && ss[i + 1] == Step(ss[i], es[i]);
    AnswerGoesOn(ss[i], es[i].l, es[i].loginReply);
  }

  /** Whatever id the CCU issues to a login, or renews for it, is the one held right after, open or not. */
  lemma VouchedIsHeld(ss: seq<State>, es: seq<Event>, i: nat, l: nat, x: Sid)
    requires IsRun(ss, es) && i < |es| && Enabled(ss[i], es[i]) && VouchesFor(ss[i], es[i], l, x)
    ensures ss[i + 1].sessionId == Some(x)
  {
    RunInv(ss, es, i);
    assert ss[i + 1] == Step(ss[i], es[i]);
    VouchedHeld(ss[i], l, es[i].loginReply, x);
  }

  lemma VouchedHeld(s: State, l: nat, reply: LoginReply, x: Sid)
    requires Inv(s) && Enabled(s, ReplyLogin(l, reply)) && VouchesFor(s, ReplyLogin(l, reply), l, x)
    ensures LoginContinue(s, l, s.env.logins[l], reply).sessionId == Some(x)
  {
    assert LoginKnows(s, l, s.env.logins[l]);
    match (s.env.logins[l], reply)
    case (RenewingStored(y, _), Accepted) => HoldLogins(s, l, y, Settled(LoginOk(Some(y))));
    case (LoggingIn(_, _), Issued(y)) => HoldLogins(s, l, y, MakingDir(s.env.turn));
    case _ =>
  }

  // ---------------------------------------------------------------- how often a login is attempted

  /** How often the CCU answered login `l` with "too many sessions" in the first `i` events. */
  function TooMany(es: seq<Event>, i: nat, l: nat): nat
    requires i <= |es|
  {
    if i == 0 then 0 else TooMany(es, i - 1, l) + (if es[i - 1] == ReplyLogin(l, TooManySessions) then 1 else 0)
  }

  /** The stage fits the number of such answers. */
  predicate Counts(s: State, l: nat, n: nat) {
    if l in s.env.logins then
      match s.env.logins[l]
      case RenewingHeld(_, _) => n == 0
      case ReadingFile(_) => n == 0
      case RenewingStored(_, _) => n == 0
      case LoggingIn(k, _) => n == k
      case BackingOff(k, _) => n == k + 1
      case _ => true
    else l >= s.env.nextLogin ==> n == 0
  }

  lemma StartedCounts(s: State, l: nat, n: nat)
    requires SingleFlight(s) && Counts(s, l, n)
    ensures Counts(Login(s).0, l, n)
  {
  }

  lemma ReplyCounts(s: State, k: nat, reply: LoginReply, l: nat, n: nat)
    requires Enabled(s, ReplyLogin(k, reply)) && Counts(s, l, n) && k < s.env.nextLogin
    ensures Counts(LoginContinue(s, k, s.env.logins[k], reply), l,
                   if ReplyLogin(k, reply) == ReplyLogin(l, TooManySessions) then n + 1 else n)
  {
    ReplyStages(s, k, reply);
    ReplyNext(s, k, reply);
    if l == k { ReplyCountsItself(s, k, reply, n); }
  }

  lemma ReplyNext(s: State, k: nat, reply: LoginReply)
    requires k in s.env.logins
    ensures LoginContinue(s, k, s.env.logins[k], reply).env.nextLogin == s.env.nextLogin
  {
    match (s.env.logins[k], reply)
    case (RenewingStored(x, _), Accepted) => HoldNext(s, k, x, Settled(LoginOk(Some(x))));
    case (LoggingIn(_, _), Issued(x)) => HoldNext(s, k, x, MakingDir(s.env.turn));
    case _ =>
  }

  lemma HoldNext(s: State, l: nat, x: Sid, stage: LoginStage)
    ensures SetLogin(HoldSession(s, l, x), l, stage).env.nextLogin == s.env.nextLogin
  {
  }

  lemma ReplyCountsItself(s: State, k: nat, reply: LoginReply, n: nat)
    requires Enabled(s, ReplyLogin(k, reply)) && Counts(s, k, n)
    ensures Counts(LoginContinue(s, k, s.env.logins[k], reply), k, if reply.TooManySessions? then n + 1 else n)
  {
    match (s.env.logins[k], reply)
    case (RenewingStored(x, _), Accepted) => HoldLogins(s, k, x, Settled(LoginOk(Some(x))));
    case (LoggingIn(_, _), Issued(x)) => HoldLogins(s, k, x, MakingDir(s.env.turn));
    case _ =>
  }

  lemma FinallyCounts(s: State, k: nat, l: nat, n: nat)
    requires SingleFlight(s) && Enabled(s, FinallyLogin(k)) && Counts(s, l, n)
    ensures Counts(LoginFinally(s, k, s.env.logins[k].outcome), l, n)
  {
  }

  lemma SameCounts(s: State, t: State, l: nat, n: nat)
    requires SameLogins(s, t) && t.env.nextLogin >= s.env.nextLogin && Counts(s, l, n)
    ensures Counts(t, l, n)
  {
  }

  lemma LoginNext(s: State, e: Event)
    requires Enabled(s, e) && !e.ReplyLogin? && !e.FinallyLogin?
    ensures Step(s, e).env.nextLogin == if StartsLogin(s, e) then s.env.nextLogin + 1 else s.env.nextLogin
  {
    match e
    case StartCall(c) =>
    case ReplyCall(c, reply) => NextAfterReply(s, c, reply);
    case ResumeCall(c) => NextAfterResume(s, c);
    case ReplyCallback(h, ok) =>
    case FinallyCallback(h) => NextAfterFinally(s, h);
    case StartLogout(o) => NextAfterStart(s, o);
    case ResumeLogout(o) => NextAfterStop(s); NextAfterTail(StopRenewal(s), o);
    case Destroy => NextAfterStop(s);
    case _ =>
  }

  lemma NextAfterReply(s: State, c: nat, reply: CallReply)
    requires c in s.env.calls
    ensures CallContinue(s, c, reply).env.nextLogin ==
      if s.loginPromise == None && reply.CallAuth? && s.env.calls[c].stage.Sent? then s.env.nextLogin + 1 else s.env.nextLogin
  {
  }

  lemma NextAfterResume(s: State, c: nat)
    requires c in s.env.calls
    ensures CallAfterLogin(s, c).env.nextLogin == s.env.nextLogin
  {
  }

  lemma NextAfterFinally(s: State, h: nat)
    ensures CallbackFinally(s, h).env.nextLogin == s.env.nextLogin
  {
  }

  lemma NextAfterStop(s: State)
    ensures StopRenewal(s).env.nextLogin == s.env.nextLogin
    ensures StopRenewal(s.(closed := true)).env.nextLogin == s.env.nextLogin
  {
  }

  lemma NextAfterTail(s: State, o: nat)
    ensures LogoutTail(s, o).env.nextLogin == s.env.nextLogin
  {
  }

  lemma NextAfterStart(s: State, o: nat)
    ensures BeginLogout(s, o).env.nextLogin == s.env.nextLogin
  {
    NextAfterStop(s);
    NextAfterTail(StopRenewal(s.(closed := true)), o);
  }

  lemma StepCounts(s: State, e: Event, l: nat, n: nat)
    requires SingleFlight(s) && Enabled(s, e) && Counts(s, l, n)
    ensures Counts(Step(s, e), l, if e == ReplyLogin(l, TooManySessions) then n + 1 else n)
  {
    if e.ReplyLogin? {
      ReplyCounts(s, e.l, e.loginReply, l, n);
    } else if e.FinallyLogin? {
      FinallyCounts(s, e.l, l, n);
    } else {
      LoginNext(s, e);
      if e.StartLogout? || e.ResumeLogout? || e.ReplyLogout? || e.FileCleared? || e.Destroy? || e.NextTurn? {
        LogoutLogins(s, e);
      } else {
        MaybeStarts(s, e);
        StartedCounts(s, l, n);
        StartedNext(s);
      }
      SameCounts(if StartsLogin(s, e) then Login(s).0 else s, Step(s, e), l, n);
    }
  }

  lemma StartedNext(s: State)
    ensures Login(s).0.env.nextLogin == if s.loginPromise == None then s.env.nextLogin + 1 else s.env.nextLogin
  {
  }

  lemma {:induction false} RunCounts(ss: seq<State>, es: seq<Event>, i: nat, l: nat)
    requires IsRun(ss, es) && i < |ss|
    ensures Counts(ss[i], l, TooMany(es, i, l))
    decreases i
  {
    if i > 0 {
      RunCounts(ss, es, i - 1, l);
      RunInv(ss, es, i - 1);
      assert Enabled(ss[i - 1], es[i - 1]) && ss[i] == Step(ss[i - 1], es[i - 1]);
      StepCounts(ss[i - 1], es[i - 1], l, TooMany(es, i - 1, l));
    }
  }

  /** In every run a login that is sending `Session.login` for the n-th time has been told "too many
      sessions" n - 1 times before, and one that waits to try again once more than that. */
  lemma AttemptsAreCounted(ss: seq<State>, es: seq<Event>, i: nat, l: nat)
    requires IsRun(ss, es) && i < |ss| && l in ss[i].env.logins
    ensures ss[i].env.logins[l].LoggingIn? ==> ss[i].env.logins[l].attempt == TooMany(es, i, l) <= 3
    ensures ss[i].env.logins[l].BackingOff? ==> ss[i].env.logins[l].attempt + 1 == TooMany(es, i, l) <= 3
  {
    RunCounts(ss, es, i, l);
    RunInv(ss, es, i);
    assert LoginKnows(ss[i], l, ss[i].env.logins[l]);
  }

  // ---------------------------------------------------------------- renewal and the session file

  /** A fired timer renews the held id; a renewal that fails waits for a login in flight. */
  lemma FiredTimerRenews(ss: seq<State>, es: seq<Event>, i: nat, h: nat)
    requires IsRun(ss, es) && i < |es|
    ensures es[i] == TimerFires(h) ==> (
      && h in ss[i + 1].env.callbacks
      && ss[i + 1].env.callbacks[h] == (if ss[i].sessionId.Some? then CallbackRenewing(ss[i].sessionId.value, ss[i].env.turn)
                                        else CallbackSettled))
    ensures es[i] == ReplyCallback(h, true) ==> (
      h in ss[i + 1].env.callbacks && ss[i + 1].env.callbacks[h] == CallbackSettled)
    ensures es[i] == ReplyCallback(h, false) ==> (
      && h in ss[i + 1].env.callbacks
      && ss[i + 1].env.callbacks[h].CallbackAwaitingLogin? && ss[i + 1].env.callbacks[h].login in ss[i + 1].env.logins)
  {
    RunInv(ss, es, i);
    assert Enabled(ss[i], es[i]) && ss[i + 1] == Step(ss[i], es[i]);
    if es[i].ReplyCallback? { RenewalAnswered(ss[i], es[i].h, es[i].ok); }
  }

  lemma RenewalAnswered(s: State, h: nat, ok: bool)
    requires Inv(s)
    ensures var t := CallbackContinue(s, h, ok);
      && h in t.env.callbacks
      && (if ok then t.env.callbacks[h] == CallbackSettled
          else t.env.callbacks[h].CallbackAwaitingLogin? && t.env.callbacks[h].login in t.env.logins)
  {
    LoginInv(s);
  }

  /** A logout that removed the session file leaves none, and none is written after it. */
  lemma LogoutRemovesFile(ss: seq<State>, es: seq<Event>, i: nat, j: nat, o: nat)
    requires IsRun(ss, es) && i < j < |ss| && es[i] == FileCleared(o, true)
    ensures ss[j].env.file == None
  {
    assert Enabled(ss[i], es[i]) && ss[i + 1] == Step(ss[i], es[i]);
    FileRemoved(ss[i], o);
    LogoutIsFinal(ss, es, i + 1, j);
  }

  lemma FileRemoved(s: State, o: nat)
    requires Enabled(s, FileCleared(o, true))
    ensures var t := Step(s, FileCleared(o, true)); t.env.file == None && LoggedOut(t)
  {
    var t := Step(s, FileCleared(o, true));
    assert o in t.env.logouts && t.env.logouts[o].LogoutReturned?;
  }

  // ---------------------------------------------------------------- how a logout goes on

  /** Logout `o` is past waiting for a login with this event. */
  predicate Proceeds(s: State, e: Event, o: nat) {
    (e == StartLogout(o) && s.loginPromise == None) || e == ResumeLogout(o)
  }

  predicate ReturnsNow(s: State, e: Event, o: nat) {
    (Proceeds(s, e, o) && s.sessionId == None) || (e.FileCleared? && e.o == o)
  }

  predicate HasReturned(s: State, o: nat) {
    o in s.env.logouts && s.env.logouts[o].LogoutReturned?
  }

  predicate LogoutEvent(e: Event) {
    e.StartLogout? || e.ResumeLogout? || e.ReplyLogout? || e.FileCleared?
  }

  /** Where logout `o` stands after event `e`: it waits for the login in flight, asks the CCU to end
      the held session, clears the file next, or returns. */
  ghost predicate LogoutGoesOn(s: State, e: Event, t: State, o: nat) {
    && (HasReturned(t, o) <==> HasReturned(s, o) || ReturnsNow(s, e, o))
    && (Proceeds(s, e, o) && s.sessionId.Some? ==>
          o in t.env.logouts && t.env.logouts[o] == LoggingOut(s.sessionId.value, s.env.turn))
    && (e == StartLogout(o) && s.loginPromise.Some? ==>
          o in t.env.logouts && t.env.logouts[o] == LogoutAwaitingLogin(s.loginPromise.value))
    && (e == ReplyLogout(o) ==> o in t.env.logouts && t.env.logouts[o].ClearingFile? && t.sessionId == None)
  }

  lemma OtherLogouts(s: State, e: Event)
    requires Enabled(s, e) && !LogoutEvent(e)
    ensures Step(s, e).env.logouts == s.env.logouts
  {
    if e.StartCall? || e.ReplyCall? || e.ResumeCall? {
      CallRecords(s, e);
    } else if e.ReplyLogin? {
      ReplyRecords(s, e.l, e.loginReply);
    } else {
      TimerRecords(s, e);
    }
  }

  lemma UntouchedLogout(s: State, e: Event, t: State, o: nat)
    requires !LogoutEvent(e) && t.env.logouts == s.env.logouts
    ensures LogoutGoesOn(s, e, t, o)
  {
  }

  lemma StoppedTimer(s: State)
    ensures var t := StopRenewal(s);
      t.env.logouts == s.env.logouts && t.sessionId == s.sessionId && t.loginPromise == s.loginPromise && t.env.turn == s.env.turn
  {
  }

  lemma StartLogoutGoesOn(s: State, k: nat, o: nat)
    requires Enabled(s, StartLogout(k))
    ensures LogoutGoesOn(s, StartLogout(k), BeginLogout(s, k), o)
  {
    StoppedTimer(s.(closed := true));
  }

  lemma ResumeLogoutGoesOn(s: State, k: nat, o: nat)
    requires Enabled(s, ResumeLogout(k))
    ensures LogoutGoesOn(s, ResumeLogout(k), LogoutTail(StopRenewal(s), k), o)
  {
    StoppedTimer(s);
  }

  lemma EndLogoutGoesOn(s: State, e: Event, o: nat)
    requires Enabled(s, e) && (e.ReplyLogout? || e.FileCleared?)
    ensures LogoutGoesOn(s, e, Step(s, e), o)
  {
  }

  lemma StepLogout(s: State, e: Event, o: nat)
    requires Enabled(s, e)
    ensures LogoutGoesOn(s, e, Step(s, e), o)
  {
    if !LogoutEvent(e) {
      OtherLogouts(s, e);
      UntouchedLogout(s, e, Step(s, e), o);
    } else if e.StartLogout? {
      StartLogoutGoesOn(s, e.o, o);
    } else if e.ResumeLogout? {
      ResumeLogoutGoesOn(s, e.o, o);
    } else {
      EndLogoutGoesOn(s, e, o);
    }
  }

  ghost predicate ReturnedAt(ss: seq<State>, es: seq<Event>, k: int, o: nat) {
    0 <= k < |es| && k < |ss| && ReturnsNow(ss[k], es[k], o)
  }

  /** In every run a logout has returned if and only if it found no session once no login was in flight,
      or its attempt to remove the session file has ended. */
  lemma {:induction false} LogoutReturnsExactly(ss: seq<State>, es: seq<Event>, i: nat, o: nat)
    requires IsRun(ss, es) && i < |ss|
    ensures HasReturned(ss[i], o) <==> exists k :: k < i && ReturnedAt(ss, es, k, o)
    decreases i
  {
    if i > 0 {
      LogoutReturnsExactly(ss, es, i - 1, o);
      assert Enabled(ss[i - 1], es[i - 1]) && ss[i] == Step(ss[i - 1], es[i - 1]);
      StepLogout(ss[i - 1], es[i - 1], o);
      if ReturnsNow(ss[i - 1], es[i - 1], o) {
        assert ReturnedAt(ss, es, i - 1, o);
      }
    }
  }

  /** A logout waits for the login in flight; once there is none it asks the CCU to end the held session,
      and after the CCU's answer no session is held and the file comes next. */
  lemma LogoutAsksCcu(ss: seq<State>, es: seq<Event>, i: nat, o: nat)
    requires IsRun(ss, es) && i < |es|
    ensures LogoutGoesOn(ss[i], es[i], ss[i + 1], o)
  {
    assert Enabled(ss[i], es[i]) && ss[i + 1] == Step(ss[i], es[i]);
    StepLogout(ss[i], es[i], o);
  }
}
