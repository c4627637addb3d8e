/**
 What `destroy()` of src/ccu/session.ts leaves behind when no `logout()` ran before
 it: exactly when it is final, told from the state at the call.
 */
module SessionShutdown {
  import opened Wrappers
  import opened SessionProtocol
  import opened SessionSafety

  // ---------------------------------------------------------------- when a closed manager stays closed

  /** A login that is past its `closed` check and may still be given a session. */
  predicate CanTake(s: State, stage: LoginStage) {
    || stage.LoggingIn? || stage.RenewingStored?
    || ((stage.ReadingFile? || stage.RenewingHeld?) && s.env.file.Some?)
  }

  predicate TakesNothing(s: State) {
    forall l :: l in s.env.logins ==> !CanTake(s, s.env.logins[l])
  }

  /** Closed, without armed timer, and no login in flight can be given a session. */
  predicate DestroyedQuietly(s: State) {
    s.closed && s.env.armed == {} && TakesNothing(s)
  }

  /** No timer is armed, and the session is the one of `s` or none. */
  predicate Undisturbed(s: State, t: State) {
    t.env.armed == {} && (t.sessionId == s.sessionId || t.sessionId == None)
  }

  lemma LoginQuiet(s: State)
    requires DestroyedQuietly(s)
    ensures DestroyedQuietly(Login(s).0) && Login(s).0.sessionId == s.sessionId
  {
  }

  lemma QuietSetCall(s: State, c: nat, call: Call)
    requires DestroyedQuietly(s)
    ensures DestroyedQuietly(SetCall(s, c, call)) && SetCall(s, c, call).sessionId == s.sessionId
  {
  }

  lemma QuietStartCall(s: State, c: nat)
    requires DestroyedQuietly(s)
    ensures DestroyedQuietly(BeginCall(s, c)) && BeginCall(s, c).sessionId == s.sessionId
  {
    LoginQuiet(s);
    if s.sessionId == None {
      QuietSetCall(Login(s).0, c, Call(AwaitingFirstLogin(Login(s).1), []));
    }
  }

  lemma QuietReplyCall(s: State, c: nat, reply: CallReply)
    requires DestroyedQuietly(s) && c in s.env.calls
    ensures DestroyedQuietly(CallContinue(s, c, reply)) && CallContinue(s, c, reply).sessionId == s.sessionId
  {
    LoginQuiet(s);
    var call := s.env.calls[c];
    if call.stage.Sent? && reply.CallAuth? {
      QuietSetCall(Login(s).0, c, call.(stage := AwaitingRelogin(call.stage.sid, Login(s).1)));
    }
  }

  lemma QuietCallStep(s: State, e: Event)
    requires Enabled(s, e) && DestroyedQuietly(s) && (e.StartCall? || e.ReplyCall? || e.ResumeCall?)
    ensures DestroyedQuietly(Step(s, e)) && Step(s, e).sessionId == s.sessionId
  {
    match e
    case StartCall(c) => QuietStartCall(s, c);
    case ReplyCall(c, reply) => QuietReplyCall(s, c, reply);
    case ResumeCall(c) => ResumedIsBusy(s, c);
  }

  lemma QuietCallbackStep(s: State, e: Event)
    requires Enabled(s, e) && DestroyedQuietly(s)
    requires e.TimerFires? || e.ReplyCallback? || e.ResumeCallback? || e.FinallyCallback?
    ensures DestroyedQuietly(Step(s, e)) && Step(s, e).sessionId == s.sessionId
  {
    LoginQuiet(s);
  }

  lemma QuietTail(s: State, o: nat)
    requires DestroyedQuietly(s)
    ensures var t := LogoutTail(s, o); DestroyedQuietly(t) && t.sessionId == s.sessionId
  {
  }

  lemma QuietStop(s: State)
    requires DestroyedQuietly(s)
    ensures var t := StopRenewal(s.(closed := true)); DestroyedQuietly(t) && t.sessionId == s.sessionId && t == StopRenewal(s)
  {
    assert s.(closed := true) == s;
  }

  lemma QuietLogoutStep(s: State, e: Event)
    requires Enabled(s, e) && DestroyedQuietly(s) && (e.StartLogout? || e.ResumeLogout? || e.Destroy?)
    ensures var t := Step(s, e); DestroyedQuietly(t) && t.sessionId == s.sessionId
  {
    QuietStop(s);
    if !e.Destroy? {
      QuietTail(StopRenewal(s), e.o);
    }
  }

  lemma QuietOtherStep(s: State, e: Event)
    requires Enabled(s, e) && DestroyedQuietly(s) && (e.ReplyLogout? || e.FileCleared? || e.NextTurn? || e.FinallyLogin?)
    ensures var t := Step(s, e); DestroyedQuietly(t) && Undisturbed(s, t)
  {
  }

  lemma QuietReply(s: State, l: nat, reply: LoginReply)
    requires SingleFlight(s) && DestroyedQuietly(s) && Enabled(s, ReplyLogin(l, reply))
    ensures var t := LoginContinue(s, l, s.env.logins[l], reply); DestroyedQuietly(t) && Undisturbed(s, t)
  {
    assert !CanTake(s, s.env.logins[l]);
    assert forall k :: k in s.env.logins ==> k == l;
  }

  lemma QuietDestroyStep(s: State, e: Event)
    requires SingleFlight(s) && Enabled(s, e) && DestroyedQuietly(s)
    ensures var t := Step(s, e); DestroyedQuietly(t) && Undisturbed(s, t)
  {
    if e.StartCall? || e.ReplyCall? || e.ResumeCall? {
      QuietCallStep(s, e);
    } else if e.TimerFires? || e.ReplyCallback? || e.ResumeCallback? || e.FinallyCallback? {
      QuietCallbackStep(s, e);
    } else if e.StartLogin? {
      LoginQuiet(s);
    } else if e.ReplyLogin? {
      QuietReply(s, e.l, e.loginReply);
    } else if e.StartLogout? || e.ResumeLogout? || e.Destroy? {
      QuietLogoutStep(s, e);
    } else {
      QuietOtherStep(s, e);
    }
  }

  lemma {:induction false} QuietDestroyIsFinal(ss: seq<State>, es: seq<Event>, i: nat, j: nat)
    requires IsRun(ss, es) && i <= j < |ss| && DestroyedQuietly(ss[i])
    ensures DestroyedQuietly(ss[j]) && Undisturbed(ss[i], ss[j])
    decreases j
  {
    if i < j {
      QuietDestroyIsFinal(ss, es, i, j - 1);
      RunInv(ss, es, j - 1);
      assert ss[j] == Step(ss[j - 1], es[j - 1]);
      QuietDestroyStep(ss[j - 1], es[j - 1]);
    }
  }

  // ---------------------------------------------------------------- continuations

  ghost predicate Follows(s: State, e: Event, t: State) {
    Enabled(s, e) && t == Step(s, e)
  }

  ghost predicate IsPath(ss: seq<State>, es: seq<Event>) {
    |ss| == |es| + 1 && forall i {:trigger es[i]} :: 0 <= i < |es| ==> Follows(ss[i], es[i], ss[i + 1])
  }

  ghost predicate PathBetween(s: State, t: State, ss: seq<State>, es: seq<Event>) {
    IsPath(ss, es) && ss[0] == s && ss[|es|] == t
  }

  /** Some continuation leads from `s` to `t`. */
  ghost predicate Reaches(s: State, t: State) {
    exists ss: seq<State>, es: seq<Event> :: PathBetween(s, t, ss, es)
  }

  lemma ReachesItself(s: State)
    ensures Reaches(s, s)
  {
    assert PathBetween(s, s, [s], []);
  }

  lemma ReachesFirst(s: State, e: Event, t: State, u: State)
    requires Follows(s, e, t) && Reaches(t, u)
    ensures Reaches(s, u)
  {
    var ss: seq<State>, es: seq<Event> :| PathBetween(t, u, ss, es);
    var ss1, es1 := [s] + ss, [e] + es;
    forall i {:trigger es1[i]} | 0 <= i < |es1| ensures Follows(ss1[i], es1[i], ss1[i + 1]) {
      if i > 0 {
        assert es1[i] == es[i - 1] && ss1[i] == ss[i - 1] && ss1[i + 1] == ss[i];
      }
    }
    assert PathBetween(s, u, ss1, es1);
  }

  lemma {:induction false} PathThrough(s: State, t: State, u: State, ss: seq<State>, es: seq<Event>)
    requires PathBetween(s, t, ss, es) && Reaches(t, u)
    ensures Reaches(s, u)
    decreases |es|
  {
    if es != [] {
      assert Follows(ss[0], es[0], ss[1]);
      assert forall i :: 0 <= i < |es| - 1 ==> es[1..][i] == es[i + 1];
      assert PathBetween(ss[1], t, ss[1..], es[1..]);
      PathThrough(ss[1], t, u, ss[1..], es[1..]);
      ReachesFirst(s, es[0], ss[1], u);
    }
  }

  lemma ReachesThrough(s: State, t: State, u: State)
    requires Reaches(s, t) && Reaches(t, u)
    ensures Reaches(s, u)
  {
    var ss: seq<State>, es: seq<Event> :| PathBetween(s, t, ss, es);
    PathThrough(s, t, u, ss, es);
  }

  lemma {:induction false} QuietAlongPath(s: State, t: State, ss: seq<State>, es: seq<Event>)
    requires Inv(s) && DestroyedQuietly(s) && PathBetween(s, t, ss, es)
    ensures Undisturbed(s, t)
    decreases |es|
  {
    if es != [] {
      assert Follows(ss[0], es[0], ss[1]);
      StepInv(s, es[0]);
      QuietDestroyStep(s, es[0]);
      assert forall i :: 0 <= i < |es| - 1 ==> es[1..][i] == es[i + 1];
      assert PathBetween(ss[1], t, ss[1..], es[1..]);
      QuietAlongPath(ss[1], t, ss[1..], es[1..]);
    }
  }

  // ---------------------------------------------------------------- draining what is ready

  ghost function ReadyCalls(s: State): set<nat> {
    set c | c in s.env.calls && CallReady(s, s.env.calls[c].stage)
  }

  ghost function ReadyCallbacks(s: State): set<nat> {
    set h | h in s.env.callbacks && CallbackReady(s, s.env.callbacks[h])
  }

  /** `t` is `s` with other calls and callbacks. */
  ghost predicate Drained(s: State, t: State) {
    t == s.(env := s.env.(calls := t.env.calls, callbacks := t.env.callbacks))
  }

  lemma ResumedIsBusy(s: State, c: nat)
    requires c in s.env.calls && CallReady(s, s.env.calls[c].stage)
    ensures var t := CallAfterLogin(s, c);
      && t == s.(env := s.env.(calls := t.env.calls))
      && t.env.calls == s.env.calls[c := t.env.calls[c]] && !CallReady(s, t.env.calls[c].stage)
  {
  }

  lemma {:induction false} DrainCalls(s: State) returns (t: State)
    ensures Reaches(s, t) && Drained(s, t) && t.env.callbacks == s.env.callbacks && ReadyCalls(t) == {}
    decreases |ReadyCalls(s)|
  {
    if ReadyCalls(s) == {} {
      t := s;
      ReachesItself(s);
    } else {
      var c :| c in ReadyCalls(s);
      var s1 := CallAfterLogin(s, c);
      ResumedIsBusy(s, c);
      assert ReadyCalls(s1) == ReadyCalls(s) - {c};
      t := DrainCalls(s1);
      assert Follows(s, ResumeCall(c), s1);
      ReachesFirst(s, ResumeCall(c), s1, t);
    }
  }

  lemma DrainOneCallback(s: State, h: nat) returns (t: State)
    requires s.closed && h in ReadyCallbacks(s)
    ensures Reaches(s, t) && t == s.(env := s.env.(callbacks := s.env.callbacks - {h}))
  {
    var s1 := if s.env.callbacks[h].CallbackSettled? then s else SetCallback(s, h, CallbackSettled);
    t := CallbackFinally(s1, h);
    assert s1.env.callbacks - {h} == s.env.callbacks - {h};
    assert Follows(s1, FinallyCallback(h), t);
    ReachesItself(t);
    ReachesFirst(s1, FinallyCallback(h), t, t);
    if !s.env.callbacks[h].CallbackSettled? {
      assert Follows(s, ResumeCallback(h), s1);
      ReachesFirst(s, ResumeCallback(h), s1, t);
    }
  }

  lemma {:induction false} DrainCallbacks(s: State) returns (t: State)
    requires s.closed
    ensures Reaches(s, t) && Drained(s, t) && t.env.calls == s.env.calls && ReadyCallbacks(t) == {}
    decreases |ReadyCallbacks(s)|
  {
    if ReadyCallbacks(s) == {} {
      t := s;
      ReachesItself(s);
    } else {
      var h :| h in ReadyCallbacks(s);
      var s1 := DrainOneCallback(s, h);
      assert ReadyCallbacks(s1) == ReadyCallbacks(s) - {h};
      t := DrainCallbacks(s1);
      ReachesThrough(s, s1, t);
    }
  }

  /** Login `l` is in flight, and nothing else is ready to run. */
  ghost predicate Poised(s: State, l: nat) {
    s.closed && l in s.env.logins && !s.env.logins[l].Settled? && Quiet(s)
  }

  lemma Poise(s: State, l: nat) returns (t: State)
    requires Inv(s) && s.closed && l in s.env.logins && !s.env.logins[l].Settled?
    ensures Reaches(s, t) && Drained(s, t) && Poised(t, l)
  {
    var s1 := DrainCalls(s);
    t := DrainCallbacks(s1);
    ReachesThrough(s, s1, t);
    LogoutsWait(s, l);
    NoneReady(s, t, l);
  }

  lemma NoneReady(s: State, t: State, l: nat)
    requires SingleFlight(s) && l in s.env.logins && !s.env.logins[l].Settled?
    requires forall o :: o in s.env.logouts ==> s.env.logouts[o] == LogoutAwaitingLogin(l)
    requires Drained(s, t) && ReadyCalls(t) == {} && ReadyCallbacks(t) == {}
    ensures Quiet(t)
  {
    assert forall c :: c in t.env.calls ==> c !in ReadyCalls(t);
    assert forall h :: h in t.env.callbacks ==> h !in ReadyCallbacks(t);
  }

  function Later(s: State, n: nat): State {
    s.(env := s.env.(turn := s.env.turn + n))
  }

  lemma {:induction false} TurnsPass(s: State, n: nat)
    requires Quiet(s)
    ensures Reaches(s, Later(s, n))
    decreases n
  {
    if n == 0 {
      ReachesItself(s);
    } else {
      TurnsPass(Later(s, 1), n - 1);
      assert Follows(s, NextTurn, Later(s, 1));
      ReachesFirst(s, NextTurn, Later(s, 1), Later(s, n));
    }
  }

  // ---------------------------------------------------------------- the login in flight takes a session

  ghost predicate Armed(s: State) {
    exists t :: Reaches(s, t) && t.env.armed != {}
  }

  lemma ArmedThrough(s: State, t: State)
    requires Reaches(s, t) && Armed(t)
    ensures Armed(s)
  {
    var u :| Reaches(t, u) && u.env.armed != {};
    ReachesThrough(s, t, u);
  }

  lemma LaterPoised(s: State, l: nat, n: nat)
    requires Poised(s, l)
    ensures Poised(Later(s, n), l)
  {
  }

  lemma Delivered(s: State, l: nat, reply: LoginReply)
    requires Poised(s, l) && ReplyFits(s, s.env.logins[l], reply) && s.env.logins[l].sent < s.env.turn
    ensures Follows(s, ReplyLogin(l, reply), LoginContinue(s, l, s.env.logins[l], reply))
  {
  }

  /** Wait until the reply can be delivered, then deliver it. */
  lemma Replied(s: State, l: nat, reply: LoginReply) returns (at: State)
    requires Poised(s, l) && ReplyFits(s, s.env.logins[l], reply)
    ensures Poised(at, l) && at == s.(env := s.env.(turn := at.env.turn))
    ensures Reaches(s, LoginContinue(at, l, at.env.logins[l], reply))
  {
    var n := s.env.logins[l].sent + 1;
    at := Later(s, n);
    LaterPoised(s, l, n);
    TurnsPass(s, n);
    Delivered(at, l, reply);
    var t := LoginContinue(at, l, at.env.logins[l], reply);
    ReachesItself(t);
    ReachesFirst(at, ReplyLogin(l, reply), t, t);
    ReachesThrough(s, at, t);
  }

  lemma HoldArms(s: State, l: nat, x: Sid, stage: LoginStage)
    ensures SetLogin(HoldSession(s, l, x), l, stage).env.armed != {}
  {
    var t := StopRenewal(s.(sessionId := Some(x), env := s.env.(vouched := s.env.vouched + {(l, x)})));
    assert t.env.nextTimer in ScheduleRenewal(t).env.armed;
  }

  lemma IssuedArms(s: State, l: nat)
    requires Poised(s, l) && s.env.logins[l].LoggingIn?
    ensures Armed(s)
  {
    var at := Replied(s, l, Issued(0));
    HoldArms(at, l, 0, MakingDir(at.env.turn));
  }

  lemma StoredArms(s: State, l: nat)
    requires Poised(s, l) && s.env.logins[l].RenewingStored?
    ensures Armed(s)
  {
    var x := s.env.logins[l].sid;
    var at := Replied(s, l, Accepted);
    HoldArms(at, l, x, Settled(LoginOk(Some(x))));
  }

  /** Moving on to another stage keeps the manager poised. */
  lemma StillPoised(s: State, l: nat, held: Option<Sid>, stage: LoginStage)
    requires Poised(s, l) && !stage.Settled?
    ensures Poised(SetLogin(s.(sessionId := held), l, stage), l)
  {
  }

  lemma FileArms(s: State, l: nat)
    requires Poised(s, l) && s.env.logins[l].ReadingFile? && s.env.file.Some?
    ensures Armed(s)
  {
    var x := s.env.file.value;
    var at := Replied(s, l, FileHit(x));
    var stage := RenewingStored(x, at.env.turn);
    StillPoised(at, l, at.sessionId, stage);
    StoredArms(SetLogin(at, l, stage), l);
    ArmedThrough(s, SetLogin(at, l, stage));
  }

  lemma HeldArms(s: State, l: nat)
    requires Poised(s, l) && s.env.logins[l].RenewingHeld? && s.env.file.Some?
    ensures Armed(s)
  {
    var at := Replied(s, l, Refused);
    var stage := ReadingFile(at.env.turn);
    StillPoised(at, l, None, stage);
    FileArms(SetLogin(at.(sessionId := None), l, stage), l);
    ArmedThrough(s, SetLogin(at.(sessionId := None), l, stage));
  }

  lemma TakingArms(s: State, l: nat)
    requires Inv(s) && s.closed && l in s.env.logins && CanTake(s, s.env.logins[l])
    ensures Armed(s)
  {
    var t := Poise(s, l);
    match t.env.logins[l] {
      case LoggingIn(_, _) => IssuedArms(t, l);
      case RenewingStored(_, _) => StoredArms(t, l);
      case ReadingFile(_) => FileArms(t, l);
      case RenewingHeld(_, _) => HeldArms(t, l);
    }
    ArmedThrough(s, t);
  }

  // ---------------------------------------------------------------- the claim

  /** A closed manager without armed timer stays so, and takes no session, in every continuation if and
      only if no login in flight can be given one. */
  lemma ClosedForGoodExactly(s: State)
    requires Inv(s) && s.closed && s.env.armed == {}
    ensures (forall t :: Reaches(s, t) ==> Undisturbed(s, t)) <==> TakesNothing(s)
  {
    if TakesNothing(s) {
      forall t | Reaches(s, t) ensures Undisturbed(s, t) {
        var ss: seq<State>, es: seq<Event> :| PathBetween(s, t, ss, es);
        QuietAlongPath(s, t, ss, es);
      }
    } else {
      var l :| l in s.env.logins && CanTake(s, s.env.logins[l]);
      TakingArms(s, l);
      var t :| Reaches(s, t) && t.env.armed != {};
      assert !Undisturbed(s, t);
    }
  }

  /** So `destroy()`, called in any state that a run reaches, is final if and only if no login is then
      logging in, renewing a stored session, or on its way to a session file that holds one. */
  lemma DestroyIsFinalExactly(ss: seq<State>, es: seq<Event>, i: nat)
    requires IsRun(ss, es) && i < |ss|
    ensures var t := Step(ss[i], Destroy);
      (forall u :: Reaches(t, u) ==> Undisturbed(t, u)) <==> TakesNothing(ss[i])
  {
    RunInv(ss, es, i);
    StepInv(ss[i], Destroy);
    Destroyed(ss[i]);
    ClosedForGoodExactly(Step(ss[i], Destroy));
  }

  lemma Destroyed(s: State)
    requires OneChain(s)
    ensures var t := Step(s, Destroy);
      t.closed && t.env.armed == {} && t.env.logins == s.env.logins && t.env.file == s.env.file && t.sessionId == s.sessionId
  {
  }

  // ---------------------------------------------------------------- step by step

  /** A login past its `closed` check is given a session: by `Session.login`, or by renewing a stored one. */
  predicate Revives(s: State, e: Event)
    requires Enabled(s, e)
  {
    && e.ReplyLogin?
    && ((s.env.logins[e.l].LoggingIn? && e.loginReply.Issued?) ||
        (s.env.logins[e.l].RenewingStored? && e.loginReply.Accepted?))
  }

  ghost predicate Bare(s: State) {
    s.sessionId == None && s.env.armed == {}
  }

  lemma BareLogin(s: State)
    requires Bare(s)
    ensures Bare(Login(s).0)
  {
  }

  lemma BareCallStep(s: State, e: Event)
    requires Enabled(s, e) && Bare(s) && (e.StartCall? || e.ReplyCall? || e.ResumeCall?)
    ensures Bare(Step(s, e))
  {
    BareLogin(s);
  }

  lemma BareTimerStep(s: State, e: Event)
    requires Enabled(s, e) && Bare(s) && s.closed && !e.StartCall? && !e.ReplyCall? && !e.ResumeCall? && !e.ReplyLogin?
    ensures Bare(Step(s, e))
  {
    BareLogin(s);
  }

  lemma BareReply(s: State, l: nat, reply: LoginReply)
    requires Enabled(s, ReplyLogin(l, reply)) && Bare(s)
    ensures Bare(LoginContinue(s, l, s.env.logins[l], reply)) <==> !Revives(s, ReplyLogin(l, reply))
  {
  }

  /** The steps that bring a closed manager without session and timer back to life are exactly these. */
  lemma RevivedExactly(s: State, e: Event)
    requires Enabled(s, e) && s.closed && Bare(s)
    ensures Bare(Step(s, e)) <==> !Revives(s, e)
  {
    if e.StartCall? || e.ReplyCall? || e.ResumeCall? {
      BareCallStep(s, e);
    } else if e.ReplyLogin? {
      BareReply(s, e.l, e.loginReply);
    } else {
      BareTimerStep(s, e);
    }
  }

  /** A closed-or-open manager with just login 0 running. */
  function OneLogin(sid: Option<Sid>, timer: Option<nat>, closed: bool, turn: nat, stage: LoginStage, vouched: set<(nat, Sid)>): State {
    State(sid, timer, Some(0), closed,
          Env(turn, if timer.Some? then {timer.value} else {}, if timer.Some? then timer.value + 1 else 0, 1,
              map[0 := stage], map[], map[], map[], map[], None, vouched))
  }

  /** A run in which `destroy()` overtakes the login in flight. */
  ghost predicate Overtaking(ss: seq<State>, es: seq<Event>) {
    && |ss| == 7 && Initial(ss[0]) && ss[0].env.file == None
    && ss[1] == OneLogin(None, None, false, 0, ReadingFile(0), {})
    && ss[2] == OneLogin(None, None, false, 1, ReadingFile(0), {})
    && ss[3] == OneLogin(None, None, false, 1, LoggingIn(0, 1), {})
    && ss[4] == OneLogin(None, None, true, 1, LoggingIn(0, 1), {})
    && ss[5] == OneLogin(None, None, true, 2, LoggingIn(0, 1), {})
    && ss[6] == OneLogin(Some(7), Some(0), true, 2, MakingDir(2), {(0, 7)})
    && es == [StartLogin, NextTurn, ReplyLogin(0, FileMiss), Destroy, NextTurn, ReplyLogin(0, Issued(7))]
  }

  lemma StartsReading(s: State)
    requires Initial(s) && s.env.file == None
    ensures Step(s, StartLogin) == OneLogin(None, None, false, 0, ReadingFile(0), {})
  {
    assert map[][0 := ReadingFile(0)] == map[0 := ReadingFile(0)];
  }

  lemma TurnPasses(closed: bool, turn: nat, stage: LoginStage)
    requires !stage.Settled?
    ensures var s := OneLogin(None, None, closed, turn, stage, {});
      Enabled(s, NextTurn) && Step(s, NextTurn) == OneLogin(None, None, closed, turn + 1, stage, {})
  {
  }

  lemma FileIsMissing()
    ensures var s, e := OneLogin(None, None, false, 1, ReadingFile(0), {}), ReplyLogin(0, FileMiss);
      Enabled(s, e) && Step(s, e) == OneLogin(None, None, false, 1, LoggingIn(0, 1), {})
  {
    assert map[0 := ReadingFile(0)][0 := LoggingIn(0, 1)] == map[0 := LoggingIn(0, 1)];
  }

  lemma Destroys(turn: nat, stage: LoginStage)
    ensures Step(OneLogin(None, None, false, turn, stage, {}), Destroy) == OneLogin(None, None, true, turn, stage, {})
  {
  }

  lemma IsIssued(x: Sid)
    ensures var s, e := OneLogin(None, None, true, 2, LoggingIn(0, 1), {}), ReplyLogin(0, Issued(x));
      Enabled(s, e) && Step(s, e) == OneLogin(Some(x), Some(0), true, 2, MakingDir(2), {(0, x)})
  {
    assert map[0 := LoggingIn(0, 1)][0 := MakingDir(2)] == map[0 := MakingDir(2)];
  }

  lemma OvertakingStarts(ss: seq<State>, es: seq<Event>)
    requires Overtaking(ss, es)
    ensures Follows(ss[0], es[0], ss[1]) && Follows(ss[1], es[1], ss[2])
  {
    StartsReading(ss[0]);
    TurnPasses(false, 0, ReadingFile(0));
  }

  lemma OvertakingMiddle(ss: seq<State>, es: seq<Event>)
    requires Overtaking(ss, es)
    ensures Follows(ss[2], es[2], ss[3]) && Follows(ss[3], es[3], ss[4])
  {
    FileIsMissing();
    Destroys(1, LoggingIn(0, 1));
  }

  lemma OvertakingEnds(ss: seq<State>, es: seq<Event>)
    requires Overtaking(ss, es)
    ensures Follows(ss[4], es[4], ss[5]) && Follows(ss[5], es[5], ss[6])
  {
    TurnPasses(true, 1, LoggingIn(0, 1));
    IsIssued(7);
  }

  lemma FollowsIsRun(ss: seq<State>, es: seq<Event>)
    requires |ss| == |es| + 1 && Initial(ss[0])
    requires forall i {:trigger es[i]} :: 0 <= i < |es| ==> Follows(ss[i], es[i], ss[i + 1])
    ensures IsRun(ss, es)
  {
  }

  lemma SomeRunOvertakes()
    ensures exists ss: seq<State>, es: seq<Event> :: Overtaking(ss, es)
  {
    var s0 := State(None, None, None, false, Env(0, {}, 0, 0, map[], map[], map[], map[], map[], None, {}));
    assert Overtaking(
      [s0,
       OneLogin(None, None, false, 0, ReadingFile(0), {}),
       OneLogin(None, None, false, 1, ReadingFile(0), {}),
       OneLogin(None, None, false, 1, LoggingIn(0, 1), {}),
       OneLogin(None, None, true, 1, LoggingIn(0, 1), {}),
       OneLogin(None, None, true, 2, LoggingIn(0, 1), {}),
       OneLogin(Some(7), Some(0), true, 2, MakingDir(2), {(0, 7)})],
      [StartLogin, NextTurn, ReplyLogin(0, FileMiss), Destroy, NextTurn, ReplyLogin(0, Issued(7))]);
  }

  /** `destroy()` alone does not stop a login in flight: it may still take a session and arm the timer. */
  lemma DestroyAloneIsNotFinal()
    ensures exists ss: seq<State>, es: seq<Event> :: |es| == 6 && IsRun(ss, es)
              && es[3] == Destroy && ss[4].sessionId == None && ss[4].env.armed == {}
              && ss[6].sessionId.Some? && ss[6].env.armed != {}
  {
    SomeRunOvertakes();
    var ss: seq<State>, es: seq<Event> :| Overtaking(ss, es);
    OvertakingStarts(ss, es);
    OvertakingMiddle(ss, es);
    OvertakingEnds(ss, es);
    FollowsIsRun(ss, es);
    assert 0 in ss[6].env.armed;
  }
}
