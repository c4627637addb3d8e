/**
 What every step of the session protocol keeps, and the safety claims that
 follow for every run: one login at a time, no leaked session, one renewal
 chain, no doomed retry, and nothing left behind once `logout()` returned.
 */
module SessionSafety {
  import opened Wrappers
  import opened SessionProtocol

  // ---------------------------------------------------------------- the invariant

  /** At most one `doLogin` runs, and it is the one `loginPromise` stands for. */
  ghost predicate SingleFlight(s: State) {
    && (forall l :: l in s.env.logins ==> s.loginPromise == Some(l) && l < s.env.nextLogin && l !in s.env.finished)
    && (s.loginPromise.Some? ==> s.loginPromise.value in s.env.logins)
    && (forall l :: l in s.env.finished ==> l < s.env.nextLogin)
  }

  /** A login that was stopped by the `closed` check, or failed; it touches nothing any more. */
  predicate Harmless(stage: LoginStage) {
    stage == Settled(LoginFailed)
  }

  /** What a suspended `doLogin` knows about the fields when it is resumed. */
  ghost predicate LoginKnows(s: State, l: nat, stage: LoginStage) {
    match stage
    case RenewingHeld(x, _) => s.sessionId == Some(x)
    case ReadingFile(_) => s.sessionId == None
    case RenewingStored(_, _) => s.sessionId == None
    case LoggingIn(n, _) => s.sessionId == None && n <= LOGIN_MAX_RETRIES
    case BackingOff(n, _) => s.sessionId == None && n < LOGIN_MAX_RETRIES
    case MakingDir(_) => s.sessionId.Some? && (l, s.sessionId.value) in s.env.vouched
    case WritingFile(content, _) => s.sessionId.Some? && content == s.sessionId && (l, s.sessionId.value) in s.env.vouched
    case Settled(LoginOk(held)) => held.Some? && held == s.sessionId && (l, held.value) in s.env.vouched
    case Settled(LoginFailed) => true
  }

  ghost predicate LoginsKnow(s: State) {
    && (forall l :: l in s.env.logins ==> LoginKnows(s, l, s.env.logins[l]))
    && (forall l :: l in s.env.finished && s.env.finished[l].LoginOk? ==>
          s.env.finished[l].held.Some? && (l, s.env.finished[l].held.value) in s.env.vouched)
  }

  /** One renewal timer, armed or with its callback on the way, as long as the manager is open. */
  ghost predicate OneChain(s: State) {
    && (forall h :: h in s.env.armed ==> s.renewTimer == Some(h))
    && (s.renewTimer.Some? ==> s.renewTimer.value < s.env.nextTimer)
    && (forall h :: h in s.env.callbacks ==> h < s.env.nextTimer && h !in s.env.armed)
    && (!s.closed && s.renewTimer.Some? ==>
          s.renewTimer.value in s.env.armed || s.renewTimer.value in s.env.callbacks)
    && (!s.closed && s.sessionId.Some? ==> s.renewTimer.Some?)
  }

  /** A `logout()` that has got past waiting for the login in flight. */
  predicate PastWait(stage: LogoutStage) {
    !stage.LogoutAwaitingLogin?
  }

  ghost predicate LogoutKnows(s: State, stage: LogoutStage) {
    && s.closed
    && ((stage.LogoutAwaitingLogin? && stage.login in s.env.logins) ||
        forall l :: l in s.env.logins ==> Harmless(s.env.logins[l]))
    && (stage.LogoutAwaitingLogin? ==> stage.login in s.env.logins || stage.login in s.env.finished)
    && (PastWait(stage) ==> s.renewTimer == None && s.env.armed == {})
    && (stage.LoggingOut? ==> (s.sessionId == None || s.sessionId == Some(stage.sid)))
    && (stage.ClearingFile? || stage.LogoutReturned? ==> s.sessionId == None)
  }

  ghost predicate LogoutsKnow(s: State) {
    forall o :: o in s.env.logouts ==> LogoutKnows(s, s.env.logouts[o])
  }

  ghost predicate CallKnows(s: State, call: Call) {
    match call.stage
    case AwaitingFirstLogin(l) => call.sends == [] && (l in s.env.logins || l in s.env.finished)
    case Sent(x, _) => call.sends == [x]
    case AwaitingRelogin(used, l) => call.sends == [used] && (l in s.env.logins || l in s.env.finished)
    case Resent(used, x, _) => call.sends == [used, x] && used != x
    case Done(Denied(used, l)) =>
      call.sends == [used] && (l, used) in s.env.vouched && l in s.env.finished && s.env.finished[l] == LoginOk(Some(used))
    case Done(_) => |call.sends| <= 2 && (|call.sends| == 2 ==> call.sends[0] != call.sends[1])
  }

  ghost predicate CallsKnow(s: State) {
    forall c :: c in s.env.calls ==> CallKnows(s, s.env.calls[c])
  }

  /** A call waits on a login that has already ended well: it resumes within this turn. */
  ghost predicate Resuming(s: State, stage: CallStage) {
    stage.AwaitingRelogin? && stage.login in s.env.finished && s.env.finished[stage.login].LoginOk?
  }

  /** Until such a call has resumed, nothing sent before this turn can change `sessionId`. */
  ghost predicate WindowQuiet(s: State, held: Option<Sid>) {
    && s.sessionId == held
    && (forall l :: l in s.env.logins && !s.env.logins[l].Settled? ==> s.env.logins[l].sent == s.env.turn)
    && (forall o :: o in s.env.logouts && s.env.logouts[o].LoggingOut? ==> s.env.logouts[o].sent == s.env.turn)
  }

  ghost predicate Window(s: State) {
    forall c :: c in s.env.calls && Resuming(s, s.env.calls[c].stage) ==>
      WindowQuiet(s, s.env.finished[s.env.calls[c].stage.login].held)
  }

  ghost predicate Inv(s: State) {
    && SingleFlight(s) && LoginsKnow(s) && OneChain(s) && LogoutsKnow(s)
    && CallsKnow(s) && Window(s)
  }

  // ---------------------------------------------------------------- preservation

  lemma InitialInv(s: State)
    requires Initial(s)
    ensures Inv(s)
  {
  }

  /** `login()` keeps the invariant, and the caller ends up waiting on a login in flight. */
  lemma LoginInv(s: State)
    requires Inv(s)
    ensures Inv(Login(s).0)
    ensures Login(s).1 in Login(s).0.env.logins
    ensures Login(s).0.env.calls == s.env.calls && Login(s).0.env.callbacks == s.env.callbacks
    ensures Login(s).0.env.finished == s.env.finished && Login(s).0.sessionId == s.sessionId
  {
  }

  lemma SetCallInv(s: State, c: nat, call: Call)
    requires Inv(s) && CallKnows(s, call) && !Resuming(s, call.stage)
    ensures Inv(SetCall(s, c, call))
  {
    var t := SetCall(s, c, call);
    forall k | k in t.env.calls ensures CallKnows(t, t.env.calls[k]) {
      assert t.env.calls[k] == if k == c then call else s.env.calls[k];
    }
  }

  lemma CallStepInv(s: State, e: Event)
    requires Inv(s) && Enabled(s, e) && (e.StartCall? || e.ReplyCall? || e.ResumeCall?)
    ensures Inv(Step(s, e))
  {
    LoginInv(s);
    var r := Login(s);
    match e {
      case StartCall(c) =>
        match s.sessionId {
          case None => SetCallInv(r.0, c, Call(AwaitingFirstLogin(r.1), []));
          case Some(x) => SetCallInv(s, c, Call(Sent(x, s.env.turn), [x]));
        }
      case ReplyCall(c, reply) =>
        var call := s.env.calls[c];
        assert CallKnows(s, call);
        if call.stage.Sent? && reply.CallAuth? {
          SetCallInv(r.0, c, call.(stage := AwaitingRelogin(call.stage.sid, r.1)));
        } else {
          SetCallInv(s, c, call.(stage := Done(if reply.CallOk? then Answered else Failed)));
        }
      case ResumeCall(c) =>
        var call := s.env.calls[c];
        assert CallKnows(s, call);
        ResumeCallInv(s, c, call);
    }
  }

  lemma ResumeCallInv(s: State, c: nat, call: Call)
    requires Inv(s) && c in s.env.calls && s.env.calls[c] == call && CallReady(s, call.stage)
    ensures Inv(CallAfterLogin(s, c))
  {
    assert CallKnows(s, call);
    var l := call.stage.login;
    if s.env.finished[l].LoginFailed? {
      SetCallInv(s, c, call.(stage := Done(LoginRejected)));
    } else if s.sessionId == None {
      SetCallInv(s, c, call.(stage := Done(NoActiveSession)));
    } else {
      var x := s.sessionId.value;
      if call.stage.AwaitingFirstLogin? {
        SetCallInv(s, c, Call(Sent(x, s.env.turn), call.sends + [x]));
      } else if x == call.stage.used {
        assert WindowQuiet(s, s.env.finished[l].held);
        SetCallInv(s, c, call.(stage := Done(Denied(x, l))));
      } else {
        SetCallInv(s, c, Call(Resent(call.stage.used, x, s.env.turn), call.sends + [x]));
      }
    }
  }

  /** A reply from before this turn reaches `doLogin` only after every such call has resumed. */
  lemma NoneResuming(s: State)
    requires Inv(s)
    requires (exists l :: l in s.env.logins && !s.env.logins[l].Settled? && s.env.logins[l].sent < s.env.turn)
          || (exists o :: o in s.env.logouts && s.env.logouts[o].LoggingOut? && s.env.logouts[o].sent < s.env.turn)
    ensures forall c :: c in s.env.calls ==> !Resuming(s, s.env.calls[c].stage)
  {
  }

  /** `doLogin` moves to another stage, knowing there what it has to know. */
  lemma SetLoginInv(s: State, l: nat, stage: LoginStage)
    requires Inv(s) && l in s.env.logins && !s.env.logins[l].Settled? && LoginKnows(s, l, stage)
    requires forall c :: c in s.env.calls ==> !Resuming(s, s.env.calls[c].stage)
    ensures Inv(SetLogin(s, l, stage))
  {
    var t := SetLogin(s, l, stage);
    forall o | o in t.env.logouts ensures LogoutKnows(t, t.env.logouts[o]) {
      assert LogoutKnows(s, s.env.logouts[o]);
    }
    forall c | c in t.env.calls ensures CallKnows(t, t.env.calls[c]) {
      assert CallKnows(s, s.env.calls[c]);
    }
  }

  lemma LoginAttemptInv(s: State, l: nat, attempt: nat)
    requires Inv(s) && l in s.env.logins && !s.env.logins[l].Settled?
    requires s.sessionId == None && attempt <= LOGIN_MAX_RETRIES
    requires forall c :: c in s.env.calls ==> !Resuming(s, s.env.calls[c].stage)
    ensures Inv(LoginAttempt(s, l, attempt))
  {
    SetLoginInv(s, l, if s.closed then Settled(LoginFailed) else LoggingIn(attempt, s.env.turn));
  }

  lemma StartRenewalChain(s: State)
    requires OneChain(s.(sessionId := None))
    ensures OneChain(StartRenewal(s))
  {
  }

  /** While a login is past its `closed` check, every logout still waits for it. */
  lemma LogoutsWait(s: State, l: nat)
    requires Inv(s) && l in s.env.logins && !s.env.logins[l].Settled?
    ensures forall o :: o in s.env.logouts ==> s.closed && s.env.logouts[o] == LogoutAwaitingLogin(l)
  {
    forall o | o in s.env.logouts ensures s.closed && s.env.logouts[o] == LogoutAwaitingLogin(l) {
      assert LogoutKnows(s, s.env.logouts[o]);
    }
  }

  lemma HoldSessionChain(s: State, l: nat, x: Sid, stage: LoginStage)
    requires OneChain(s) && s.sessionId == None
    ensures OneChain(SetLogin(HoldSession(s, l, x), l, stage))
  {
    StartRenewalChain(s);
  }

  /** `t` is `s` after the login took session `x`, whatever became of the renewal timer. */
  ghost predicate TookSession(s: State, t: State, l: nat, x: Sid, stage: LoginStage) {
    && t.sessionId == Some(x) && t.loginPromise == s.loginPromise && t.closed == s.closed
    && t.env.logins == s.env.logins[l := stage] && t.env.finished == s.env.finished
    && t.env.calls == s.env.calls && t.env.logouts == s.env.logouts && t.env.nextLogin == s.env.nextLogin
    && t.env.turn == s.env.turn && t.env.vouched == s.env.vouched + {(l, x)}
  }

  lemma TookSessionInv(s: State, t: State, l: nat, x: Sid, stage: LoginStage)
    requires Inv(s) && l in s.env.logins && !s.env.logins[l].Settled? && s.sessionId == None
    requires stage.MakingDir? || stage == Settled(LoginOk(Some(x)))
    requires forall c :: c in s.env.calls ==> !Resuming(s, s.env.calls[c].stage)
    requires TookSession(s, t, l, x, stage) && OneChain(t)
    ensures Inv(t)
  {
    LogoutsWait(s, l);
    forall c | c in t.env.calls ensures CallKnows(t, t.env.calls[c]) {
      assert CallKnows(s, s.env.calls[c]);
    }
    forall c | c in t.env.calls ensures !Resuming(t, t.env.calls[c].stage) {
      assert !Resuming(s, s.env.calls[c].stage);
    }
  }

  /** The login takes a session and starts its renewal. */
  lemma HoldSessionInv(s: State, l: nat, x: Sid, stage: LoginStage)
    requires Inv(s) && l in s.env.logins && !s.env.logins[l].Settled? && s.sessionId == None
    requires stage.MakingDir? || stage == Settled(LoginOk(Some(x)))
    requires forall c :: c in s.env.calls ==> !Resuming(s, s.env.calls[c].stage)
    ensures Inv(SetLogin(HoldSession(s, l, x), l, stage))
  {
    HoldSessionChain(s, l, x, stage);
    TookSessionInv(s, SetLogin(HoldSession(s, l, x), l, stage), l, x, stage);
  }

  lemma VouchInv(s: State, l: nat, x: Sid)
    requires Inv(s)
    ensures Inv(s.(env := s.env.(vouched := s.env.vouched + {(l, x)})))
  {
    var t := s.(env := s.env.(vouched := s.env.vouched + {(l, x)}));
    forall c | c in t.env.calls ensures CallKnows(t, t.env.calls[c]) {
      assert CallKnows(s, s.env.calls[c]);
    }
    forall o | o in t.env.logouts ensures LogoutKnows(t, t.env.logouts[o]) {
      assert LogoutKnows(s, s.env.logouts[o]);
    }
    forall k | k in t.env.logins ensures LoginKnows(t, k, t.env.logins[k]) {
      assert LoginKnows(s, k, s.env.logins[k]);
    }
  }

  /** The held session was refused: `doLogin` drops it and looks at the session file. */
  lemma RefusedInv(s: State, l: nat, x: Sid)
    requires Inv(s) && l in s.env.logins && s.env.logins[l].RenewingHeld? && s.env.logins[l].sid == x
    requires forall c :: c in s.env.calls ==> !Resuming(s, s.env.calls[c].stage)
    ensures Inv(LoginContinue(s, l, s.env.logins[l], Refused))
  {
    var t := LoginContinue(s, l, s.env.logins[l], Refused);
    assert LoginKnows(s, l, s.env.logins[l]);
    forall o | o in t.env.logouts ensures LogoutKnows(t, t.env.logouts[o]) {
      assert LogoutKnows(s, s.env.logouts[o]);
    }
    forall c | c in t.env.calls ensures CallKnows(t, t.env.calls[c]) {
      assert CallKnows(s, s.env.calls[c]);
    }
  }

  lemma ReplyRenewalInv(s: State, l: nat, reply: LoginReply)
    requires Inv(s) && l in s.env.logins && ReplyFits(s, s.env.logins[l], reply)
    requires s.env.logins[l].RenewingHeld? || s.env.logins[l].RenewingStored?
    requires forall c :: c in s.env.calls ==> !Resuming(s, s.env.calls[c].stage)
    ensures Inv(LoginContinue(s, l, s.env.logins[l], reply))
  {
    var stage := s.env.logins[l];
    assert LoginKnows(s, l, stage);
    if stage.RenewingHeld? && reply.Accepted? {
      VouchInv(s, l, stage.sid);
      SetLoginInv(s.(env := s.env.(vouched := s.env.vouched + {(l, stage.sid)})), l, Settled(LoginOk(s.sessionId)));
    } else if stage.RenewingHeld? {
      RefusedInv(s, l, stage.sid);
    } else if reply.Accepted? {
      HoldSessionInv(s, l, stage.sid, Settled(LoginOk(Some(stage.sid))));
    } else {
      LoginAttemptInv(s, l, 0);
    }
  }

  lemma ReplyAttemptInv(s: State, l: nat, reply: LoginReply)
    requires Inv(s) && l in s.env.logins && ReplyFits(s, s.env.logins[l], reply)
    requires s.env.logins[l].LoggingIn? || s.env.logins[l].BackingOff? || s.env.logins[l].ReadingFile?
    requires forall c :: c in s.env.calls ==> !Resuming(s, s.env.calls[c].stage)
    ensures Inv(LoginContinue(s, l, s.env.logins[l], reply))
  {
    assert LoginKnows(s, l, s.env.logins[l]);
    match s.env.logins[l] {
      case ReadingFile(_) =>
        if reply.FileHit? {
          SetLoginInv(s, l, RenewingStored(reply.stored, s.env.turn));
        } else {
          LoginAttemptInv(s, l, 0);
        }
      case LoggingIn(n, _) =>
        if reply.Issued? {
          HoldSessionInv(s, l, reply.sid, MakingDir(s.env.turn));
        } else if reply.TooManySessions? && n < LOGIN_MAX_RETRIES {
          SetLoginInv(s, l, BackingOff(n, s.env.turn));
        } else {
          SetLoginInv(s, l, Settled(LoginFailed));
        }
      case BackingOff(n, _) => LoginAttemptInv(s, l, n + 1);
    }
  }

  lemma FileInv(s: State, file: Option<Sid>)
    requires Inv(s)
    ensures Inv(s.(env := s.env.(file := file)))
  {
    var t := s.(env := s.env.(file := file));
    forall o | o in t.env.logouts ensures LogoutKnows(t, t.env.logouts[o]) {
      assert LogoutKnows(s, s.env.logouts[o]);
    }
    forall c | c in t.env.calls ensures CallKnows(t, t.env.calls[c]) {
      assert CallKnows(s, s.env.calls[c]);
    }
    forall k | k in t.env.logins ensures LoginKnows(t, k, t.env.logins[k]) {
      assert LoginKnows(s, k, s.env.logins[k]);
    }
  }

  lemma ReplySaveInv(s: State, l: nat, reply: LoginReply)
    requires Inv(s) && l in s.env.logins && ReplyFits(s, s.env.logins[l], reply)
    requires s.env.logins[l].MakingDir? || s.env.logins[l].WritingFile?
    requires forall c :: c in s.env.calls ==> !Resuming(s, s.env.calls[c].stage)
    ensures Inv(LoginContinue(s, l, s.env.logins[l], reply))
  {
    var stage := s.env.logins[l];
    assert LoginKnows(s, l, stage);
    if stage.MakingDir? {
      SetLoginInv(s, l, if reply.ok then WritingFile(s.sessionId, s.env.turn) else Settled(LoginOk(s.sessionId)));
    } else {
      var file := if reply.ok then stage.content else s.env.file;
      FileInv(s, file);
      SetLoginInv(s.(env := s.env.(file := file)), l, Settled(LoginOk(s.sessionId)));
    }
  }

  lemma ReplyLoginInv(s: State, l: nat, reply: LoginReply)
    requires Inv(s) && Enabled(s, ReplyLogin(l, reply))
    ensures Inv(Step(s, ReplyLogin(l, reply)))
  {
    NoneResuming(s);
    var stage := s.env.logins[l];
    if stage.RenewingHeld? || stage.RenewingStored? {
      ReplyRenewalInv(s, l, reply);
    } else if stage.MakingDir? || stage.WritingFile? {
      ReplySaveInv(s, l, reply);
    } else {
      ReplyAttemptInv(s, l, reply);
    }
  }

  lemma FinallyLoginInv(s: State, l: nat)
    requires Inv(s) && Enabled(s, FinallyLogin(l))
    ensures Inv(Step(s, FinallyLogin(l)))
  {
    var t := Step(s, FinallyLogin(l));
    assert LoginKnows(s, l, s.env.logins[l]);
    forall o | o in t.env.logouts
      ensures LogoutKnows(t, t.env.logouts[o]) && (t.env.logouts[o].LoggingOut? ==> Harmless(s.env.logins[l]))
    {
      assert LogoutKnows(s, s.env.logouts[o]);
    }
    forall c | c in t.env.calls ensures CallKnows(t, t.env.calls[c]) {
      assert CallKnows(s, s.env.calls[c]);
    }
    forall c | c in t.env.calls && Resuming(t, t.env.calls[c].stage)
      ensures WindowQuiet(t, t.env.finished[t.env.calls[c].stage.login].held)
    {
      var w := t.env.calls[c].stage.login;
      if w != l {
        assert Resuming(s, s.env.calls[c].stage);
        assert WindowQuiet(s, s.env.finished[w].held);
      }
    }
  }

  /** A step that leaves the logins, the logouts and the fields alone leaves their knowledge alone. */
  lemma SetCallbackInv(s: State, h: nat, stage: CallbackStage)
    requires Inv(s) && h < s.env.nextTimer && h !in s.env.armed
    ensures Inv(SetCallback(s, h, stage))
  {
    var t := SetCallback(s, h, stage);
    forall o | o in t.env.logouts ensures LogoutKnows(t, t.env.logouts[o]) {
      assert LogoutKnows(s, s.env.logouts[o]);
    }
  }

  lemma FireTimerInv(s: State, h: nat)
    requires Inv(s) && h in s.env.armed
    ensures Inv(FireTimer(s, h))
  {
    var t := FireTimer(s, h);
    forall o | o in t.env.logouts ensures LogoutKnows(t, t.env.logouts[o]) {
      assert LogoutKnows(s, s.env.logouts[o]);
    }
  }

  lemma CallbackFinallyChain(s: State, h: nat)
    requires OneChain(s) && h in s.env.callbacks
    ensures OneChain(CallbackFinally(s, h))
  {
  }

  lemma CallbackFinallyInv(s: State, h: nat)
    requires Inv(s) && h in s.env.callbacks
    ensures Inv(CallbackFinally(s, h))
  {
    CallbackFinallyChain(s, h);
    OnlyTimers(s, CallbackFinally(s, h));
  }

  /** A step that changes only timers and callbacks, and re-arms only while open, keeps the rest. */
  lemma OnlyTimers(s: State, t: State)
    requires Inv(s) && OneChain(t)
    requires t.sessionId == s.sessionId && t.loginPromise == s.loginPromise && t.closed == s.closed
    requires t.env == s.env.(armed := t.env.armed, nextTimer := t.env.nextTimer, callbacks := t.env.callbacks)
    requires s.closed ==> t.renewTimer == s.renewTimer && t.env.armed <= s.env.armed
    ensures Inv(t)
  {
    forall o | o in t.env.logouts ensures LogoutKnows(t, t.env.logouts[o]) {
      assert LogoutKnows(s, s.env.logouts[o]);
    }
    forall c | c in t.env.calls ensures CallKnows(t, t.env.calls[c]) {
      assert CallKnows(s, s.env.calls[c]);
    }
    forall k | k in t.env.logins ensures LoginKnows(t, k, t.env.logins[k]) {
      assert LoginKnows(s, k, s.env.logins[k]);
    }
  }

  lemma ReplyCallbackInv(s: State, h: nat, ok: bool)
    requires Inv(s) && h in s.env.callbacks
    ensures Inv(CallbackContinue(s, h, ok))
  {
    if ok {
      SetCallbackInv(s, h, CallbackSettled);
    } else {
      LoginInv(s);
      SetCallbackInv(Login(s).0, h, CallbackAwaitingLogin(Login(s).1));
    }
  }

  /** Closing the manager and stopping the timer is always allowed. */
  lemma CloseInv(s: State)
    requires Inv(s)
    ensures Inv(StopRenewal(s.(closed := true)))
  {
  }

  lemma SetLogoutInv(s: State, o: nat, stage: LogoutStage)
    requires Inv(s) && LogoutKnows(s, stage)
    requires stage.LoggingOut? ==> stage.sent == s.env.turn
    ensures Inv(SetLogout(s, o, stage))
  {
    var t := SetLogout(s, o, stage);
    forall k | k in t.env.logouts ensures LogoutKnows(t, t.env.logouts[k]) {
      assert t.env.logouts[k] == if k == o then stage else s.env.logouts[k];
    }
    forall c | c in t.env.calls && Resuming(t, t.env.calls[c].stage)
      ensures WindowQuiet(t, t.env.finished[t.env.calls[c].stage.login].held)
    {
      assert Resuming(s, s.env.calls[c].stage);
    }
  }

  lemma LogoutTailInv(s: State, o: nat)
    requires Inv(s) && s.closed && s.renewTimer == None
    requires forall l :: l in s.env.logins ==> Harmless(s.env.logins[l])
    ensures Inv(LogoutTail(s, o))
  {
    match s.sessionId {
      case None => SetLogoutInv(s, o, LogoutReturned);
      case Some(x) => SetLogoutInv(s, o, LoggingOut(x, s.env.turn));
    }
  }

  lemma DropSessionInv(s: State, o: nat)
    requires Inv(s) && Enabled(s, ReplyLogout(o))
    ensures Inv(s.(sessionId := None))
  {
    var t := s.(sessionId := None);
    assert LogoutKnows(s, s.env.logouts[o]);
    NoneResuming(s);
    forall k | k in t.env.logouts ensures LogoutKnows(t, t.env.logouts[k]) {
      assert LogoutKnows(s, s.env.logouts[k]);
    }
  }

  lemma LogoutStepInv(s: State, e: Event)
    requires Inv(s) && Enabled(s, e)
    requires e.StartLogout? || e.ResumeLogout? || e.ReplyLogout? || e.FileCleared?
    ensures Inv(Step(s, e))
  {
    CloseInv(s);
    var s1 := StopRenewal(s.(closed := true));
    match e {
      case StartLogout(o) =>
        if s.loginPromise.Some? {
          SetLogoutInv(s1, o, LogoutAwaitingLogin(s.loginPromise.value));
        } else {
          LogoutTailInv(s1, o);
        }
      case ResumeLogout(o) =>
        assert LogoutKnows(s, s.env.logouts[o]);
        assert s.(closed := true) == s;
        LogoutTailInv(s1, o);
      case ReplyLogout(o) =>
        assert LogoutKnows(s, s.env.logouts[o]);
        DropSessionInv(s, o);
        SetLogoutInv(s.(sessionId := None), o, ClearingFile(s.env.turn));
      case FileCleared(o, ok) =>
        assert LogoutKnows(s, s.env.logouts[o]);
        var file := if ok then None else s.env.file;
        FileInv(s, file);
        SetLogoutInv(s.(env := s.env.(file := file)), o, LogoutReturned);
    }
  }

  /** Every step keeps the invariant. */
  lemma StepInv(s: State, e: Event)
    requires Inv(s) && Enabled(s, e)
    ensures Inv(Step(s, e))
  {
    match e {
      case StartCall(_) => CallStepInv(s, e);
      case ReplyCall(_, _) => CallStepInv(s, e);
      case ResumeCall(_) => CallStepInv(s, e);
      case StartLogin => LoginInv(s);
      case ReplyLogin(l, reply) => ReplyLoginInv(s, l, reply);
      case FinallyLogin(l) => FinallyLoginInv(s, l);
      case TimerFires(h) => FireTimerInv(s, h);
      case ReplyCallback(h, ok) => ReplyCallbackInv(s, h, ok);
      case ResumeCallback(h) => SetCallbackInv(s, h, CallbackSettled);
      case FinallyCallback(h) => CallbackFinallyInv(s, h);
      case StartLogout(_) => LogoutStepInv(s, e);
      case ResumeLogout(_) => LogoutStepInv(s, e);
      case ReplyLogout(_) => LogoutStepInv(s, e);
      case FileCleared(_, _) => LogoutStepInv(s, e);
      case Destroy => CloseInv(s);
      case NextTurn =>
    }
  }

  /** The invariant holds in every state of every run. */
  lemma {:induction false} RunInv(ss: seq<State>, es: seq<Event>, i: nat)
    requires IsRun(ss, es) && i < |ss|
    ensures Inv(ss[i])
    decreases i
  {
    if i == 0 {
      InitialInv(ss[0]);
    } else {
      RunInv(ss, es, i - 1);
      assert ss[i] == Step(ss[i - 1], es[i - 1]);
      StepInv(ss[i - 1], es[i - 1]);
    }
  }

  // ---------------------------------------------------------------- the claims, over every run

  /** Two bodies of `doLogin` never run at the same time, and none sends `Session.login` a fifth time. */
  lemma OneLoginAtATime(ss: seq<State>, es: seq<Event>, i: nat)
    requires IsRun(ss, es) && i < |ss|
    ensures forall l, m :: l in ss[i].env.logins && m in ss[i].env.logins ==> l == m
    ensures forall l :: l in ss[i].env.logins && ss[i].env.logins[l].LoggingIn? ==>
              ss[i].env.logins[l].attempt <= LOGIN_MAX_RETRIES
  {
    RunInv(ss, es, i);
    forall l | l in ss[i].env.logins && ss[i].env.logins[l].LoggingIn?
      ensures ss[i].env.logins[l].attempt <= LOGIN_MAX_RETRIES
    {
      assert LoginKnows(ss[i], l, ss[i].env.logins[l]);
    }
  }

  /** The step is the CCU refusing to renew `x`, or the end of an attempted `Session.logout` of `x`. */
  predicate LetsGo(s: State, e: Event, x: Sid)
    requires Enabled(s, e)
  {
    || (e.ReplyLogin? && e.loginReply.Refused? && s.env.logins[e.l].RenewingHeld? && s.env.logins[e.l].sid == x)
    || (e.ReplyLogout? && s.env.logouts[e.o].sid == x)
  }

  lemma StepKeepsSession(s: State, e: Event, x: Sid)
    requires Inv(s) && Enabled(s, e) && s.sessionId == Some(x) && !LetsGo(s, e, x)
    ensures Step(s, e).sessionId == Some(x)
  {
    assert forall l :: l in s.env.logins ==> LoginKnows(s, l, s.env.logins[l]);
    assert forall o :: o in s.env.logouts ==> LogoutKnows(s, s.env.logouts[o]);
  }

  /** No session is leaked: a held id is given up only after the CCU refused it or was asked to end it. */
  lemma {:induction false} NoSessionLeaked(ss: seq<State>, es: seq<Event>, i: nat, j: nat, x: Sid)
    requires IsRun(ss, es) && i <= j < |ss|
    requires ss[i].sessionId == Some(x) && ss[j].sessionId != Some(x)
    ensures exists k :: i <= k < j && LetsGo(ss[k], es[k], x)
    decreases j - i
  {
    assert ss[i + 1] == Step(ss[i], es[i]);
    if !LetsGo(ss[i], es[i], x) {
      RunInv(ss, es, i);
      StepKeepsSession(ss[i], es[i], x);
      NoSessionLeaked(ss, es, i + 1, j, x);
    }
  }

  ghost predicate LoggedOut(s: State) {
    exists o :: o in s.env.logouts && s.env.logouts[o].LogoutReturned?
  }

  /** Once some `logout()` has returned, the manager stays without session and without timer, and
      no step writes the session file any more. */
  lemma {:induction false} LogoutIsFinal(ss: seq<State>, es: seq<Event>, i: nat, j: nat)
    requires IsRun(ss, es) && i <= j < |ss| && LoggedOut(ss[i])
    ensures LoggedOut(ss[j])
    ensures ss[j].sessionId == None && ss[j].renewTimer == None && ss[j].env.armed == {}
    ensures ss[j].env.file == ss[i].env.file || ss[j].env.file == None
    decreases j
  {
    if i < j {
      LogoutIsFinal(ss, es, i, j - 1);
      var s, e := ss[j - 1], es[j - 1];
      assert ss[j] == Step(s, e);
      RunInv(ss, es, j - 1);
      LoggedOutStep(s, e);
    }
    RunInv(ss, es, j);
    var o :| o in ss[j].env.logouts && ss[j].env.logouts[o].LogoutReturned?;
    assert LogoutKnows(ss[j], ss[j].env.logouts[o]);
  }

  lemma LoggedOutStep(s: State, e: Event)
    requires Inv(s) && Enabled(s, e) && LoggedOut(s)
    ensures LoggedOut(Step(s, e))
    ensures Step(s, e).env.file == s.env.file || Step(s, e).env.file == None
  {
    var o :| o in s.env.logouts && s.env.logouts[o].LogoutReturned?;
    assert LogoutKnows(s, s.env.logouts[o]);
    ReturnedStays(s, e, o);
    HarmlessFile(s, e);
  }

  /** The logouts, the file and what the CCU vouched for are as before. */
  ghost predicate SameRecords(s: State, t: State) {
    t.env.logouts == s.env.logouts && t.env.file == s.env.file && t.env.vouched == s.env.vouched
  }

  lemma LoginRecords(s: State)
    ensures SameRecords(s, Login(s).0)
  {
  }

  lemma ResumeRecords(s: State, c: nat)
    requires c in s.env.calls
    ensures SameRecords(s, CallAfterLogin(s, c))
  {
  }

  lemma StartCallRecords(s: State, c: nat)
    ensures SameRecords(s, BeginCall(s, c))
  {
    LoginRecords(s);
  }

  lemma ReplyCallRecords(s: State, c: nat, reply: CallReply)
    requires c in s.env.calls
    ensures SameRecords(s, CallContinue(s, c, reply))
  {
    LoginRecords(s);
  }

  lemma CallRecords(s: State, e: Event)
    requires Enabled(s, e) && (e.StartCall? || e.ReplyCall? || e.ResumeCall?)
    ensures SameRecords(s, Step(s, e))
  {
    match e
    case StartCall(c) => StartCallRecords(s, c);
    case ReplyCall(c, reply) => ReplyCallRecords(s, c, reply);
    case ResumeCall(c) => ResumeRecords(s, c);
  }

  lemma TimerRecords(s: State, e: Event)
    requires Enabled(s, e) && !e.StartCall? && !e.ReplyCall? && !e.ResumeCall? && !e.ReplyLogin?
    requires !e.StartLogout? && !e.ResumeLogout? && !e.ReplyLogout? && !e.FileCleared?
    ensures SameRecords(s, Step(s, e))
  {
    LoginRecords(s);
  }

  /** Nothing was vouched for, the file is as before or gone, and a `logout()` that returned stays so. */
  ghost predicate LogoutsRecorded(s: State, t: State) {
    && t.env.vouched == s.env.vouched
    && (t.env.file == s.env.file || t.env.file == None)
    && forall o :: o in s.env.logouts && s.env.logouts[o].LogoutReturned? ==>
         o in t.env.logouts && t.env.logouts[o].LogoutReturned?
  }

  lemma StopRecords(s: State)
    ensures SameRecords(s, StopRenewal(s)) && SameRecords(s, StopRenewal(s.(closed := true)))
  {
  }

  lemma TailRecords(s: State, o: nat)
    requires o !in s.env.logouts || !s.env.logouts[o].LogoutReturned?
    ensures LogoutsRecorded(s, LogoutTail(s, o))
  {
  }

  lemma LogoutStartRecords(s: State, e: Event)
    requires Enabled(s, e) && (e.StartLogout? || e.ResumeLogout?)
    ensures LogoutsRecorded(s, Step(s, e))
  {
    StopRecords(s);
    TailRecords(StopRenewal(s), e.o);
    TailRecords(StopRenewal(s.(closed := true)), e.o);
  }

  lemma LogoutEndRecords(s: State, e: Event)
    requires Enabled(s, e) && (e.ReplyLogout? || e.FileCleared?)
    ensures LogoutsRecorded(s, Step(s, e))
  {
  }

  lemma LogoutRecords(s: State, e: Event)
    requires Enabled(s, e) && (e.StartLogout? || e.ResumeLogout? || e.ReplyLogout? || e.FileCleared?)
    ensures LogoutsRecorded(s, Step(s, e))
  {
    if e.StartLogout? || e.ResumeLogout? {
      LogoutStartRecords(s, e);
    } else {
      LogoutEndRecords(s, e);
    }
  }

  /** What the CCU vouches for when it answers `doLogin` so. */
  function NewlyVouched(l: nat, stage: LoginStage, reply: LoginReply): set<(nat, Sid)> {
    match (stage, reply)
    case (RenewingHeld(x, _), Accepted) => {(l, x)}
    case (RenewingStored(x, _), Accepted) => {(l, x)}
    case (LoggingIn(_, _), Issued(x)) => {(l, x)}
    case _ => {}
  }

  lemma HoldRecords(s: State, l: nat, x: Sid, stage: LoginStage)
    ensures var t := SetLogin(HoldSession(s, l, x), l, stage);
      t.env.logouts == s.env.logouts && t.env.vouched == s.env.vouched + {(l, x)}
  {
  }

  lemma AttemptRecords(s: State, l: nat, n: nat)
    ensures SameRecords(s, LoginAttempt(s, l, n))
  {
  }

  lemma ReplyRecords(s: State, l: nat, reply: LoginReply)
    requires l in s.env.logins
    ensures var t := LoginContinue(s, l, s.env.logins[l], reply);
      t.env.logouts == s.env.logouts && t.env.vouched == s.env.vouched + NewlyVouched(l, s.env.logins[l], reply)
  {
    match (s.env.logins[l], reply)
    case (RenewingStored(x, _), Accepted) => HoldRecords(s, l, x, Settled(LoginOk(Some(x))));
    case (LoggingIn(_, _), Issued(x)) => HoldRecords(s, l, x, MakingDir(s.env.turn));
    case (ReadingFile(_), FileMiss) => AttemptRecords(s, l, 0);
    case (RenewingStored(_, _), Refused) => AttemptRecords(s, l, 0);
    case (BackingOff(n, _), Elapsed) => AttemptRecords(s, l, n + 1);
    case _ =>
  }

  lemma ReturnedStays(s: State, e: Event, o: nat)
    requires Enabled(s, e) && o in s.env.logouts && s.env.logouts[o].LogoutReturned?
    ensures o in Step(s, e).env.logouts && Step(s, e).env.logouts[o].LogoutReturned?
  {
    if e.StartCall? || e.ReplyCall? || e.ResumeCall? {
      CallRecords(s, e);
    } else if e.StartLogout? || e.ResumeLogout? || e.ReplyLogout? || e.FileCleared? {
      LogoutRecords(s, e);
    } else if e.ReplyLogin? {
      ReplyRecords(s, e.l, e.loginReply);
    } else {
      TimerRecords(s, e);
    }
  }

  /** A harmless login never resumes, so only `logout` touches the file. */
  lemma HarmlessFile(s: State, e: Event)
    requires Enabled(s, e) && forall l :: l in s.env.logins ==> Harmless(s.env.logins[l])
    ensures Step(s, e).env.file == s.env.file || Step(s, e).env.file == None
  {
    if e.StartCall? || e.ReplyCall? || e.ResumeCall? {
      CallRecords(s, e);
    } else if e.StartLogout? || e.ResumeLogout? || e.ReplyLogout? || e.FileCleared? {
      LogoutRecords(s, e);
    } else {
      TimerRecords(s, e);
    }
  }

  /** At most one renewal timer is armed and it is `renewTimer`; while the manager is open and logged
      in, that timer exists and is armed, or its callback runs and will re-arm it. */
  lemma OneRenewalChain(ss: seq<State>, es: seq<Event>, i: nat)
    requires IsRun(ss, es) && i < |ss|
    ensures var s := ss[i];
      && (forall h :: h in s.env.armed ==> s.renewTimer == Some(h))
      && (!s.closed && s.sessionId.Some? ==>
            && s.renewTimer.Some?
            && var h := s.renewTimer.value;
            && (h in s.env.armed || h in s.env.callbacks)
            && (h in s.env.callbacks ==> CallbackFinally(s, h).renewTimer.Some?
                                         && CallbackFinally(s, h).renewTimer.value in CallbackFinally(s, h).env.armed))
  {
    RunInv(ss, es, i);
  }

  /** `call` sends at most twice, and never again with the id that failed. */
  lemma NoDoomedRetry(ss: seq<State>, es: seq<Event>, i: nat, c: nat)
    requires IsRun(ss, es) && i < |ss| && c in ss[i].env.calls
    ensures |ss[i].env.calls[c].sends| <= 2
    ensures |ss[i].env.calls[c].sends| == 2 ==> ss[i].env.calls[c].sends[0] != ss[i].env.calls[c].sends[1]
  {
    RunInv(ss, es, i);
    assert CallKnows(ss[i], ss[i].env.calls[c]);
  }

  /** In this step the CCU vouches for `x` to login `l`: it renews `x`, or issues it. */
  predicate VouchesFor(s: State, e: Event, l: nat, x: Sid)
    requires Enabled(s, e)
  {
    && e.ReplyLogin? && e.l == l
    && (match s.env.logins[l]
        case RenewingHeld(y, _) => e.loginReply.Accepted? && y == x
        case RenewingStored(y, _) => e.loginReply.Accepted? && y == x
        case LoggingIn(_, _) => e.loginReply == Issued(x)
        case _ => false)
  }

  lemma VouchStep(s: State, e: Event, l: nat, x: Sid)
    requires Enabled(s, e) && (l, x) in Step(s, e).env.vouched
    ensures (l, x) in s.env.vouched || VouchesFor(s, e, l, x)
  {
    if e.StartCall? || e.ReplyCall? || e.ResumeCall? {
      CallRecords(s, e);
    } else if e.StartLogout? || e.ResumeLogout? || e.ReplyLogout? || e.FileCleared? {
      LogoutRecords(s, e);
    } else if e.ReplyLogin? {
      ReplyRecords(s, e.l, e.loginReply);
    } else {
      TimerRecords(s, e);
    }
  }

  lemma {:induction false} VouchedWasVouched(ss: seq<State>, es: seq<Event>, i: nat, l: nat, x: Sid)
    requires IsRun(ss, es) && i < |ss| && (l, x) in ss[i].env.vouched
    ensures exists k :: 0 <= k < i && VouchesFor(ss[k], es[k], l, x)
    decreases i
  {
    if i > 0 {
      assert ss[i] == Step(ss[i - 1], es[i - 1]);
      VouchStep(ss[i - 1], es[i - 1], l, x);
      if (l, x) in ss[i - 1].env.vouched {
        VouchedWasVouched(ss, es, i - 1, l, x);
      }
    }
  }

  /** A privilege error names the one id the call used, and the login it awaited ended holding that
      very id, which the CCU had renewed or issued in that same login. */
  lemma DeniedOnlyWhenVouched(ss: seq<State>, es: seq<Event>, i: nat, c: nat, used: Sid, l: nat)
    requires IsRun(ss, es) && i < |ss| && c in ss[i].env.calls
    requires ss[i].env.calls[c].stage == Done(Denied(used, l))
    ensures ss[i].env.calls[c].sends == [used]
    ensures l in ss[i].env.finished && ss[i].env.finished[l] == LoginOk(Some(used))
    ensures exists k :: 0 <= k < i && VouchesFor(ss[k], es[k], l, used)
  {
    RunInv(ss, es, i);
    assert CallKnows(ss[i], ss[i].env.calls[c]);
    VouchedWasVouched(ss, es, i, l, used);
  }
}
