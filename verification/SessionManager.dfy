/**
 The SessionManager class of src/ccu/session.ts.  Each method is the code between
 two suspension points and is proved to make exactly the transition of
 SessionProtocol; `Deliver` is the event loop handing one event to the manager.
 The theorems of SessionSafety therefore hold of every run of this class.
 */
module SessionManager {
  import opened Wrappers
  import opened SessionProtocol
  import SessionSafety

  class SessionManager {
    var sessionId: Option<Sid>
    var renewTimer: Option<nat>
    var loginPromise: Option<nat>
    var closed: bool
    var env: Env

    function View(): State
      reads this
    {
      State(sessionId, renewTimer, loginPromise, closed, env)
    }

    constructor (stored: Option<Sid>)
      ensures Initial(View()) && env.file == stored
    {
      sessionId, renewTimer, loginPromise, closed := None, None, None, false;
      env := Env(0, {}, 0, 0, map[], map[], map[], map[], map[], stored, {});
    }

    // ---------------------------------------------------------------- the timer

    method StopRenewal()
      modifies this
      ensures View() == SessionProtocol.StopRenewal(old(View()))
    {
      if renewTimer.Some? {
        env := env.(armed := env.armed - {renewTimer.value});
        renewTimer := None;
      }
    }

    method ScheduleRenewal()
      modifies this
      ensures View() == SessionProtocol.ScheduleRenewal(old(View()))
    {
      var handle := env.nextTimer;
      env := env.(armed := env.armed + {handle}, nextTimer := handle + 1);
      renewTimer := Some(handle);
    }

    method StartRenewal()
      modifies this
      ensures View() == SessionProtocol.StartRenewal(old(View()))
    {
      StopRenewal();
      ScheduleRenewal();
    }

    // ---------------------------------------------------------------- login

    method SuspendLogin(l: nat, stage: LoginStage)
      modifies this`env
      ensures View() == SetLogin(old(View()), l, stage)
    {
      env := env.(logins := env.logins[l := stage]);
    }

    /** The body of `doLogin` up to its first `await`. */
    method DoLogin(l: nat)
      modifies this`env
      ensures View() == BeginLogin(old(View()), l)
    {
      if closed {
        SuspendLogin(l, Settled(LoginFailed));
        return;
      }
      if sessionId.Some? {
        SuspendLogin(l, RenewingHeld(sessionId.value, env.turn));
      } else {
        SuspendLogin(l, ReadingFile(env.turn));
      }
    }

    method Login() returns (l: nat)
      modifies this
      ensures (View(), l) == SessionProtocol.Login(old(View()))
    {
      if loginPromise.Some? {
        return loginPromise.value;
      }
      l := env.nextLogin;
      env := env.(nextLogin := l + 1);
      DoLogin(l);
      loginPromise := Some(l);
    }

    /** The head of the retry loop. */
    method AttemptLogin(l: nat, attempt: nat)
      modifies this`env
      ensures View() == LoginAttempt(old(View()), l, attempt)
    {
      if closed {
        SuspendLogin(l, Settled(LoginFailed));
      } else {
        SuspendLogin(l, LoggingIn(attempt, env.turn));
      }
    }

    method Hold(l: nat, x: Sid)
      modifies this
      ensures View() == HoldSession(old(View()), l, x)
    {
      sessionId := Some(x);
      env := env.(vouched := env.vouched + {(l, x)});
      StartRenewal();
    }

    /** `doLogin` resumes with the answer to what it awaited. */
    method ContinueLogin(l: nat, reply: LoginReply)
      requires l in env.logins && ReplyFits(View(), env.logins[l], reply)
      modifies this
      ensures View() == LoginContinue(old(View()), l, old(env.logins[l]), reply)
    {
      match env.logins[l] {
        case RenewingHeld(x, _) =>
          if reply.Accepted? {
            env := env.(vouched := env.vouched + {(l, x)});
            SuspendLogin(l, Settled(LoginOk(sessionId)));
          } else {
            sessionId := None;
            SuspendLogin(l, ReadingFile(env.turn));
          }
        case ReadingFile(_) =>
          if reply.FileHit? {
            SuspendLogin(l, RenewingStored(reply.stored, env.turn));
          } else {
            AttemptLogin(l, 0);
          }
        case RenewingStored(x, _) =>
          if reply.Accepted? {
            Hold(l, x);
            SuspendLogin(l, Settled(LoginOk(Some(x))));
          } else {
            AttemptLogin(l, 0);
          }
        case LoggingIn(attempt, _) =>
          if reply.Issued? {
            Hold(l, reply.sid);
            SuspendLogin(l, MakingDir(env.turn));
          } else if reply.TooManySessions? && attempt < LOGIN_MAX_RETRIES {
            SuspendLogin(l, BackingOff(attempt, env.turn));
          } else {
            SuspendLogin(l, Settled(LoginFailed));
          }
        case BackingOff(attempt, _) =>
          AttemptLogin(l, attempt + 1);
        case MakingDir(_) =>
          if reply.ok {
            SuspendLogin(l, WritingFile(sessionId, env.turn));
          } else {
            SuspendLogin(l, Settled(LoginOk(sessionId)));
          }
        case WritingFile(content, _) =>
          if reply.ok {
            env := env.(file := content);
          }
          SuspendLogin(l, Settled(LoginOk(sessionId)));
        case Settled(_) => assert false;
      }
    }

    method SettleLogin(l: nat)
      requires l in env.logins && env.logins[l].Settled?
      modifies this
      ensures View() == LoginFinally(old(View()), l, old(env.logins[l].outcome))
    {
      var outcome := env.logins[l].outcome;
      loginPromise := None;
      env := env.(logins := env.logins - {l}, finished := env.finished[l := outcome]);
    }

    // ---------------------------------------------------------------- call

    method SuspendCall(c: nat, call: Call)
      modifies this`env
      ensures View() == SetCall(old(View()), c, call)
    {
      env := env.(calls := env.calls[c := call]);
    }

    method StartCall(c: nat)
      modifies this
      ensures View() == BeginCall(old(View()), c)
    {
      if sessionId == None {
        var l := Login();
        SuspendCall(c, Call(AwaitingFirstLogin(l), []));
      } else {
        SuspendCall(c, Call(Sent(sessionId.value, env.turn), [sessionId.value]));
      }
    }

    /** The CCU answered a request of `call`: on AUTH from the first one, log in again. */
    method ContinueCall(c: nat, reply: CallReply)
      requires c in env.calls && (env.calls[c].stage.Sent? || env.calls[c].stage.Resent?)
      modifies this
      ensures View() == CallContinue(old(View()), c, reply)
    {
      var call := env.calls[c];
      if call.stage.Sent? && reply.CallAuth? {
        var l := Login();
        SuspendCall(c, call.(stage := AwaitingRelogin(call.stage.sid, l)));
      } else if reply.CallOk? {
        SuspendCall(c, call.(stage := Done(Answered)));
      } else {
        SuspendCall(c, call.(stage := Done(Failed)));
      }
    }

    /** The login that `call` awaited has settled. */
    method ResumeCall(c: nat)
      requires c in env.calls && CallReady(View(), env.calls[c].stage)
      modifies this`env
      ensures View() == CallAfterLogin(old(View()), c)
    {
      var call := env.calls[c];
      var l := call.stage.login;
      if env.finished[l].LoginFailed? {
        SuspendCall(c, call.(stage := Done(LoginRejected)));
        return;
      }
      if call.stage.AwaitingRelogin? && sessionId == Some(call.stage.used) {
        SuspendCall(c, call.(stage := Done(Denied(call.stage.used, l))));
        return;
      }
      if sessionId == None {
        SuspendCall(c, call.(stage := Done(NoActiveSession)));
        return;
      }
      var sid := sessionId.value;
      var stage := if call.stage.AwaitingRelogin? then Resent(call.stage.used, sid, env.turn) else Sent(sid, env.turn);
      SuspendCall(c, Call(stage, call.sends + [sid]));
    }

    // ---------------------------------------------------------------- renewal

    method SuspendCallback(h: nat, stage: CallbackStage)
      modifies this`env
      ensures View() == SetCallback(old(View()), h, stage)
    {
      env := env.(callbacks := env.callbacks[h := stage]);
    }

    /** The timer fires: `renewOnce` up to its first `await`. */
    method RenewOnce(h: nat)
      modifies this`env
      ensures View() == FireTimer(old(View()), h)
    {
      env := env.(armed := env.armed - {h});
      if sessionId == None {
        SuspendCallback(h, CallbackSettled);
      } else {
        SuspendCallback(h, CallbackRenewing(sessionId.value, env.turn));
      }
    }

    method ContinueRenewal(h: nat, ok: bool)
      modifies this
      ensures View() == CallbackContinue(old(View()), h, ok)
    {
      if ok {
        SuspendCallback(h, CallbackSettled);
      } else {
        var l := Login();
        SuspendCallback(h, CallbackAwaitingLogin(l));
      }
    }

    /** The `finally` of the callback: re-arm only if its own timer is still the active one. */
    method FinishRenewal(h: nat)
      modifies this
      ensures View() == CallbackFinally(old(View()), h)
    {
      env := env.(callbacks := env.callbacks - {h});
      if !closed && renewTimer == Some(h) {
        ScheduleRenewal();
      }
    }

    // ---------------------------------------------------------------- logout

    method SuspendLogout(o: nat, stage: LogoutStage)
      modifies this`env
      ensures View() == SetLogout(old(View()), o, stage)
    {
      env := env.(logouts := env.logouts[o := stage]);
    }

    method EndSession(o: nat)
      modifies this`env
      ensures View() == LogoutTail(old(View()), o)
    {
      if sessionId == None {
        SuspendLogout(o, LogoutReturned);
      } else {
        SuspendLogout(o, LoggingOut(sessionId.value, env.turn));
      }
    }

    method Logout(o: nat)
      modifies this
      ensures View() == BeginLogout(old(View()), o)
    {
      closed := true;
      StopRenewal();
      if loginPromise.Some? {
        SuspendLogout(o, LogoutAwaitingLogin(loginPromise.value));
      } else {
        EndSession(o);
      }
    }

    method Destroy()
      modifies this
      ensures View() == SessionProtocol.StopRenewal(old(View()).(closed := true))
    {
      closed := true;
      StopRenewal();
    }

    // ---------------------------------------------------------------- the event loop

    /** One event reaches the manager. */
    method Deliver(e: Event)
      requires Enabled(View(), e)
      modifies this
      ensures View() == Step(old(View()), e)
    {
      match e {
        case StartCall(c) => StartCall(c);
        case ReplyCall(c, reply) => ContinueCall(c, reply);
        case ResumeCall(c) => ResumeCall(c);
        case StartLogin => var _ := Login();
        case ReplyLogin(l, reply) => ContinueLogin(l, reply);
        case FinallyLogin(l) => SettleLogin(l);
        case TimerFires(h) => RenewOnce(h);
        case ReplyCallback(h, ok) => ContinueRenewal(h, ok);
        case ResumeCallback(h) => SuspendCallback(h, CallbackSettled);
        case FinallyCallback(h) => FinishRenewal(h);
        case StartLogout(o) => Logout(o);
        case ResumeLogout(o) =>
          StopRenewal();
          EndSession(o);
        case ReplyLogout(o) =>
          sessionId := None;
          SuspendLogout(o, ClearingFile(env.turn));
        case FileCleared(o, ok) =>
          if ok {
            env := env.(file := None);
          }
          SuspendLogout(o, LogoutReturned);
        case Destroy => Destroy();
        case NextTurn => env := env.(turn := env.turn + 1);
      }
    }
  }

  /** The events that are enabled, one after the other, are delivered to a fresh manager. */
  method RunManager(stored: Option<Sid>, es: seq<Event>) returns (m: SessionManager, ghost ss: seq<State>, delivered: nat)
    ensures fresh(m) && delivered <= |es|
    ensures IsRun(ss, es[..delivered]) && m.View() == ss[delivered] && SessionSafety.Inv(m.View())
    ensures delivered < |es| ==> !Enabled(m.View(), es[delivered])
  {
    m := new SessionManager(stored);
    ss := [m.View()];
    delivered := 0;
    while delivered < |es| && Enabled(m.View(), es[delivered])
      invariant delivered <= |es| && IsRun(ss, es[..delivered]) && m.View() == ss[delivered] && fresh(m)
      decreases |es| - delivered
    {
      m.Deliver(es[delivered]);
      ss := ss + [m.View()];
      assert es[..delivered + 1] == es[..delivered] + [es[delivered]];
      delivered := delivered + 1;
    }
    SessionSafety.RunInv(ss, es[..delivered], delivered);
  }
}
