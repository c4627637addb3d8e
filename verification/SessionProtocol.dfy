/**
 The CCU session protocol of src/ccu/session.ts as a transition system.

 A step is the code that runs between two suspension points (`await`, a timer
 callback, a promise continuation).  The state holds the four fields of the
 manager and, in `env`, what the JavaScript runtime knows: armed timers,
 suspended bodies, the session file, and a history of what the CCU answered.

 The event loop is modelled by `turn`: a reply to a request is delivered only in
 a later turn than the one that sent it, and a turn ends only once every promise
 continuation that is ready has run.  The CCU and the file system answer as they
 like; in particular the session file may hold any id at the start.
 */
module SessionProtocol {
  import opened Wrappers

  /** A session id handed out by the CCU. */
  type Sid = nat

  const LOGIN_MAX_RETRIES := 3

  /** What a settled `doLogin` left behind: the value of `sessionId`, or a rejection. */
  datatype LoginOutcome = LoginOk(held: Option<Sid>) | LoginFailed

  /** Where the body of one `doLogin` is suspended; `sent` is the turn of its request. */
  datatype LoginStage =
    | RenewingHeld(sid: Sid, sent: nat)
    | ReadingFile(sent: nat)
    | RenewingStored(sid: Sid, sent: nat)
    | LoggingIn(attempt: nat, sent: nat)
    | BackingOff(attempt: nat, sent: nat)
    | MakingDir(sent: nat)
    | WritingFile(content: Option<Sid>, sent: nat)
    | Settled(outcome: LoginOutcome)

  datatype CallResult =
    | Answered
    | Denied(used: Sid, login: nat)
    | LoginRejected
    | NoActiveSession
    | Failed

  datatype CallStage =
    | AwaitingFirstLogin(login: nat)
    | Sent(sid: Sid, sent: nat)
    | AwaitingRelogin(used: Sid, login: nat)
    | Resent(used: Sid, sid: Sid, sent: nat)
    | Done(result: CallResult)

  /** One `call()`: its stage, and the session id of every request it sent, in order. */
  datatype Call = Call(stage: CallStage, sends: seq<Sid>)

  /** The callback of a fired renewal timer, up to its `finally`. */
  datatype CallbackStage =
    | CallbackRenewing(sid: Sid, sent: nat)
    | CallbackAwaitingLogin(login: nat)
    | CallbackSettled

  datatype LogoutStage =
    | LogoutAwaitingLogin(login: nat)
    | LoggingOut(sid: Sid, sent: nat)
    | ClearingFile(sent: nat)
    | LogoutReturned

  datatype Env = Env(
    turn: nat,
    armed: set<nat>,
    nextTimer: nat,
    nextLogin: nat,
    logins: map<nat, LoginStage>,
    finished: map<nat, LoginOutcome>,
    calls: map<nat, Call>,
    callbacks: map<nat, CallbackStage>,
    logouts: map<nat, LogoutStage>,
    file: Option<Sid>,
    vouched: set<(nat, Sid)>)

  datatype State = State(
    sessionId: Option<Sid>,
    renewTimer: Option<nat>,
    loginPromise: Option<nat>,
    closed: bool,
    env: Env)

  datatype CallReply = CallOk | CallAuth | CallOther

  datatype LoginReply =
    | Accepted | Refused
    | FileHit(stored: Sid) | FileMiss
    | Issued(sid: Sid) | TooManySessions
    | Elapsed
    | IoDone(ok: bool)

  datatype Event =
    | StartCall(c: nat) | ReplyCall(c: nat, callReply: CallReply) | ResumeCall(c: nat)
    | StartLogin | ReplyLogin(l: nat, loginReply: LoginReply) | FinallyLogin(l: nat)
    | TimerFires(h: nat) | ReplyCallback(h: nat, ok: bool) | ResumeCallback(h: nat) | FinallyCallback(h: nat)
    | StartLogout(o: nat) | ResumeLogout(o: nat) | ReplyLogout(o: nat) | FileCleared(o: nat, ok: bool)
    | Destroy
    | NextTurn

  // ---------------------------------------------------------------- the timer

  function StopRenewal(s: State): State {
    match s.renewTimer
    case None => s
    case Some(h) => s.(renewTimer := None, env := s.env.(armed := s.env.armed - {h}))
  }

  function ScheduleRenewal(s: State): State {
    var h := s.env.nextTimer;
    s.(renewTimer := Some(h), env := s.env.(armed := s.env.armed + {h}, nextTimer := h + 1))
  }

  function StartRenewal(s: State): State {
    ScheduleRenewal(StopRenewal(s))
  }

  // ---------------------------------------------------------------- login

  function SetLogin(s: State, l: nat, stage: LoginStage): State {
    s.(env := s.env.(logins := s.env.logins[l := stage]))
  }

  /** The head of the retry loop: give up when closed, else send `Session.login`. */
  function LoginAttempt(s: State, l: nat, attempt: nat): State {
    SetLogin(s, l, if s.closed then Settled(LoginFailed) else LoggingIn(attempt, s.env.turn))
  }

  /** `doLogin` up to its first suspension. */
  function BeginLogin(s: State, l: nat): State {
    SetLogin(s, l,
      if s.closed then Settled(LoginFailed)
      else match s.sessionId
        case Some(x) => RenewingHeld(x, s.env.turn)
        case None => ReadingFile(s.env.turn))
  }

  /** `login()`: join the login in flight, or start one. */
  function Login(s: State): (r: (State, nat)) {
    match s.loginPromise
    case Some(l) => (s, l)
    case None =>
      var l := s.env.nextLogin;
      var s1 := BeginLogin(s.(env := s.env.(nextLogin := l + 1)), l);
      (s1.(loginPromise := Some(l)), l)
  }

  /** A session the CCU just vouched for becomes the held one, and its renewal starts. */
  function HoldSession(s: State, l: nat, x: Sid): State {
    StartRenewal(s.(sessionId := Some(x),
                    env := s.env.(vouched := s.env.vouched + {(l, x)})))
  }

  function LoginContinue(s: State, l: nat, stage: LoginStage, reply: LoginReply): State {
    match (stage, reply)
    case (RenewingHeld(x, _), Accepted) =>
      SetLogin(s.(env := s.env.(vouched := s.env.vouched + {(l, x)})), l, Settled(LoginOk(s.sessionId)))
    case (RenewingHeld(_, _), Refused) =>
      SetLogin(s.(sessionId := None), l, ReadingFile(s.env.turn))
    case (ReadingFile(_), FileHit(x)) => SetLogin(s, l, RenewingStored(x, s.env.turn))
    case (ReadingFile(_), FileMiss) => LoginAttempt(s, l, 0)
    case (RenewingStored(x, _), Accepted) =>
      SetLogin(HoldSession(s, l, x), l, Settled(LoginOk(Some(x))))
    case (RenewingStored(_, _), Refused) => LoginAttempt(s, l, 0)
    case (LoggingIn(_, _), Issued(x)) => SetLogin(HoldSession(s, l, x), l, MakingDir(s.env.turn))
    case (LoggingIn(n, _), TooManySessions) =>
      SetLogin(s, l, if n < LOGIN_MAX_RETRIES then BackingOff(n, s.env.turn) else Settled(LoginFailed))
    case (LoggingIn(_, _), Refused) => SetLogin(s, l, Settled(LoginFailed))
    case (BackingOff(n, _), Elapsed) => LoginAttempt(s, l, n + 1)
    case (MakingDir(_), IoDone(ok)) =>
      SetLogin(s, l, if ok then WritingFile(s.sessionId, s.env.turn) else Settled(LoginOk(s.sessionId)))
    case (WritingFile(content, _), IoDone(ok)) =>
      SetLogin(s.(env := s.env.(file := if ok then content else s.env.file)), l, Settled(LoginOk(s.sessionId)))
    case _ => s
  }

  predicate ReplyFits(s: State, stage: LoginStage, reply: LoginReply) {
    match stage
    case RenewingHeld(_, _) => reply.Accepted? || reply.Refused?
    case ReadingFile(_) => reply.FileMiss? || (reply.FileHit? && s.env.file == Some(reply.stored))
    case RenewingStored(_, _) => reply.Accepted? || reply.Refused?
    case LoggingIn(_, _) => reply.Issued? || reply.TooManySessions? || reply.Refused?
    case BackingOff(_, _) => reply.Elapsed?
    case MakingDir(_) => reply.IoDone?
    case WritingFile(_, _) => reply.IoDone?
    case Settled(_) => false
  }

  /** The continuation of `.finally`: the promise is forgotten, its waiters become ready. */
  function LoginFinally(s: State, l: nat, outcome: LoginOutcome): State {
    s.(loginPromise := None,
       env := s.env.(logins := s.env.logins - {l}, finished := s.env.finished[l := outcome]))
  }

  // ---------------------------------------------------------------- call

  function SetCall(s: State, c: nat, call: Call): State {
    s.(env := s.env.(calls := s.env.calls[c := call]))
  }

  function BeginCall(s: State, c: nat): State {
    match s.sessionId
    case None => var r := Login(s); SetCall(r.0, c, Call(AwaitingFirstLogin(r.1), []))
    case Some(x) => SetCall(s, c, Call(Sent(x, s.env.turn), [x]))
  }

  function CallContinue(s: State, c: nat, reply: CallReply): State
    requires c in s.env.calls
  {
    var call := s.env.calls[c];
    match call.stage
    case Sent(x, _) =>
      (match reply
       case CallOk => SetCall(s, c, call.(stage := Done(Answered)))
       case CallOther => SetCall(s, c, call.(stage := Done(Failed)))
       case CallAuth => var r := Login(s); SetCall(r.0, c, call.(stage := AwaitingRelogin(x, r.1))))
    case Resent(_, _, _) => SetCall(s, c, call.(stage := Done(if reply.CallOk? then Answered else Failed)))
    case _ => s
  }

  /** The login a call awaited has settled: send, report a privilege error, or give up. */
  function CallAfterLogin(s: State, c: nat): State
    requires c in s.env.calls
  {
    var call := s.env.calls[c];
    match call.stage
    case AwaitingFirstLogin(l) =>
      if l in s.env.finished && s.env.finished[l].LoginFailed? then SetCall(s, c, call.(stage := Done(LoginRejected)))
      else (match s.sessionId
        case None => SetCall(s, c, call.(stage := Done(NoActiveSession)))
        case Some(x) => SetCall(s, c, Call(Sent(x, s.env.turn), call.sends + [x])))
    case AwaitingRelogin(used, l) =>
      if l in s.env.finished && s.env.finished[l].LoginFailed? then SetCall(s, c, call.(stage := Done(LoginRejected)))
      else (match s.sessionId
        case None => SetCall(s, c, call.(stage := Done(NoActiveSession)))
        case Some(x) =>
          if x == used then SetCall(s, c, call.(stage := Done(Denied(used, l))))
          else SetCall(s, c, Call(Resent(used, x, s.env.turn), call.sends + [x])))
    case _ => s
  }

  // ---------------------------------------------------------------- renewal callback

  function SetCallback(s: State, h: nat, stage: CallbackStage): State {
    s.(env := s.env.(callbacks := s.env.callbacks[h := stage]))
  }

  function FireTimer(s: State, h: nat): State {
    SetCallback(s.(env := s.env.(armed := s.env.armed - {h})), h,
      match s.sessionId case None => CallbackSettled case Some(x) => CallbackRenewing(x, s.env.turn))
  }

  function CallbackContinue(s: State, h: nat, ok: bool): State {
    if ok then SetCallback(s, h, CallbackSettled)
    else
      var r := Login(s);
      SetCallback(r.0, h, CallbackAwaitingLogin(r.1))
  }

  function CallbackFinally(s: State, h: nat): State {
    var s1 := s.(env := s.env.(callbacks := s.env.callbacks - {h}));
    if !s.closed && s.renewTimer == Some(h) then ScheduleRenewal(s1) else s1
  }

  // ---------------------------------------------------------------- logout

  function SetLogout(s: State, o: nat, stage: LogoutStage): State {
    s.(env := s.env.(logouts := s.env.logouts[o := stage]))
  }

  /** `logout()` once no login is in flight any more. */
  function LogoutTail(s: State, o: nat): State {
    match s.sessionId
    case None => SetLogout(s, o, LogoutReturned)
    case Some(x) => SetLogout(s, o, LoggingOut(x, s.env.turn))
  }

  function BeginLogout(s: State, o: nat): State {
    var s1 := StopRenewal(s.(closed := true));
    match s1.loginPromise
    case Some(l) => SetLogout(s1, o, LogoutAwaitingLogin(l))
    case None => LogoutTail(s1, o)
  }

  // ---------------------------------------------------------------- the event loop

  /** No promise continuation is ready to run. */
  predicate Quiet(s: State) {
    && (forall l :: l in s.env.logins ==> !s.env.logins[l].Settled?)
    && (forall c :: c in s.env.calls ==> !CallReady(s, s.env.calls[c].stage))
    && (forall h :: h in s.env.callbacks ==> !CallbackReady(s, s.env.callbacks[h]))
    && (forall o :: o in s.env.logouts ==> !LogoutReady(s, s.env.logouts[o]))
  }

  predicate CallReady(s: State, stage: CallStage) {
    (stage.AwaitingFirstLogin? || stage.AwaitingRelogin?) && stage.login in s.env.finished
  }

  predicate CallbackReady(s: State, stage: CallbackStage) {
    stage.CallbackSettled? || (stage.CallbackAwaitingLogin? && stage.login in s.env.finished)
  }

  predicate LogoutReady(s: State, stage: LogoutStage) {
    stage.LogoutAwaitingLogin? && stage.login in s.env.finished
  }

  predicate Enabled(s: State, e: Event) {
    match e
    case StartCall(c) => c !in s.env.calls
    case ReplyCall(c, _) =>
      && c in s.env.calls
      && var stage := s.env.calls[c].stage;
      && (stage.Sent? || stage.Resent?) && stage.sent < s.env.turn
    case ResumeCall(c) => c in s.env.calls && CallReady(s, s.env.calls[c].stage)
    case StartLogin => true
    case ReplyLogin(l, reply) =>
      && l in s.env.logins
      && var stage := s.env.logins[l];
      && !stage.Settled? && stage.sent < s.env.turn && ReplyFits(s, stage, reply)
    case FinallyLogin(l) => l in s.env.logins && s.env.logins[l].Settled?
    case TimerFires(h) => h in s.env.armed
    case ReplyCallback(h, _) =>
      && h in s.env.callbacks
      && s.env.callbacks[h].CallbackRenewing? && s.env.callbacks[h].sent < s.env.turn
    case ResumeCallback(h) =>
      h in s.env.callbacks && s.env.callbacks[h].CallbackAwaitingLogin? && s.env.callbacks[h].login in s.env.finished
    case FinallyCallback(h) => h in s.env.callbacks && s.env.callbacks[h].CallbackSettled?
    case StartLogout(o) => o !in s.env.logouts
    case ResumeLogout(o) => o in s.env.logouts && LogoutReady(s, s.env.logouts[o])
    case ReplyLogout(o) => o in s.env.logouts && s.env.logouts[o].LoggingOut? && s.env.logouts[o].sent < s.env.turn
    case FileCleared(o, _) => o in s.env.logouts && s.env.logouts[o].ClearingFile? && s.env.logouts[o].sent < s.env.turn
    case Destroy => true
    case NextTurn => Quiet(s)
  }

  function Step(s: State, e: Event): State
    requires Enabled(s, e)
  {
    match e
    case StartCall(c) => BeginCall(s, c)
    case ReplyCall(c, reply) => CallContinue(s, c, reply)
    case ResumeCall(c) => CallAfterLogin(s, c)
    case StartLogin => Login(s).0
    case ReplyLogin(l, reply) => LoginContinue(s, l, s.env.logins[l], reply)
    case FinallyLogin(l) => LoginFinally(s, l, s.env.logins[l].outcome)
    case TimerFires(h) => FireTimer(s, h)
    case ReplyCallback(h, ok) => CallbackContinue(s, h, ok)
    case ResumeCallback(h) => SetCallback(s, h, CallbackSettled)
    case FinallyCallback(h) => CallbackFinally(s, h)
    case StartLogout(o) => BeginLogout(s, o)
    case ResumeLogout(o) => LogoutTail(StopRenewal(s), o)
    case ReplyLogout(o) => SetLogout(s.(sessionId := None), o, ClearingFile(s.env.turn))
    case FileCleared(o, ok) =>
      SetLogout(s.(env := s.env.(file := if ok then None else s.env.file)), o, LogoutReturned)
    case Destroy => StopRenewal(s.(closed := true))
    case NextTurn => s.(env := s.env.(turn := s.env.turn + 1))
  }

  /** A manager as constructed: nothing running, any session file on disk. */
  predicate Initial(s: State) {
    && s.sessionId == None && s.renewTimer == None && s.loginPromise == None && !s.closed
    && s.env == Env(0, {}, 0, 0, map[], map[], map[], map[], map[], s.env.file, {})
  }

  ghost predicate IsRun(ss: seq<State>, es: seq<Event>) {
    && |ss| == |es| + 1
    && Initial(ss[0])
    && forall i {:trigger es[i]} :: 0 <= i < |es| ==> Enabled(ss[i], es[i]) && ss[i + 1] == Step(ss[i], es[i])
  }
}
