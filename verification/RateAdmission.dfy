/**
 What becomes of each request to the limiter of src/middleware/rate-limiter.ts, in every run:
 when it is granted at once, when it is queued and when it is turned away, and what a timer
 tick and a shutdown do, all in terms of the tokens in hand and the queue before the event.
 */
module RateAdmission {
  import opened RateLimiter

  /** The tokens in hand at `now`: what is left and what was earned since, up to the cap. */
  function InHand(c: Config, s: State, now: real): real {
    var earned := s.tokens + Accrued(c, now - s.lastRefill);
    if earned <= c.maxTokens then earned else c.maxTokens
  }

  /** How many waiters get one of these tokens, one whole token each. */
  function Reached(c: Config, s: State, now: real): int {
    var whole := InHand(c, s, now).Floor;
    if whole <= |s.waitQueue| then whole else |s.waitQueue|
  }

  /** There is a token for every waiter and one more. */
  predicate TokenLeft(c: Config, s: State, now: real) {
    InHand(c, s, now) >= |s.waitQueue| as real + 1.0
  }

  /** The waiters of `s` that its tokens reach were granted, oldest first, and nobody else so far. */
  ghost predicate WaitersServed(c: Config, s: State, now: real, granted: seq<Grant>) {
    && 0 <= Reached(c, s, now) <= |s.waitQueue|
    && |granted| == |s.granted| + Reached(c, s, now)
    && granted[..|s.granted|] == s.granted
    && forall k :: 0 <= k < Reached(c, s, now) ==> granted[|s.granted| + k] == Grant(s.waitQueue[k], now)
  }

  /** Woken waiters are as many as whole tokens, if so many wait. */
  lemma {:induction false} WokenIsWhole(tokens: real, waiting: nat)
    requires tokens >= 0.0
    ensures Woken(tokens, waiting) == if tokens.Floor <= waiting then tokens.Floor else waiting
    decreases waiting
  {
    if waiting > 0 && tokens >= 1.0 {
      WokenIsWhole(tokens - 1.0, waiting - 1);
      assert (tokens - 1.0).Floor == tokens.Floor - 1;
    }
  }

  /** A refill serves the waiters there are tokens for. */
  lemma RefillServes(c: Config, s: State, now: real)
    requires Legal(c) && Inv(c, s) && s.lastRefill <= now
    ensures var r := Refill(c, s, now);
      && 0 <= Reached(c, s, now) <= |s.waitQueue|
      && WaitersServed(c, s, now, r.granted)
      && r.waitQueue == s.waitQueue[Reached(c, s, now)..] && r.lastRefill == now
      && r.tokens == InHand(c, s, now) - Reached(c, s, now) as real && (TokenLeft(c, s, now) <==> r.tokens >= 1.0)
  {
    AccruedGrows(c, now - s.lastRefill);
    var t := InHand(c, s, now);
    assert t == Filled(c, s, now) >= 0.0;
    WokenIsWhole(t, |s.waitQueue|);
  }

  /** The latest request is granted, turned away or queued behind all others. */
  ghost predicate Granted(s: State, t: State) {
    && t.granted != [] && t.granted[|t.granted| - 1].id == s.arrivals
    && t.rejected == s.rejected && s.arrivals !in t.waitQueue
  }

  ghost predicate TurnedAway(s: State, t: State) {
    t.rejected == s.rejected + {s.arrivals} && s.arrivals !in Ids(t.granted) && s.arrivals !in t.waitQueue
  }

  ghost predicate QueuedLast(s: State, t: State) {
    && t.waitQueue != [] && t.waitQueue[|t.waitQueue| - 1] == s.arrivals && t.timerArmed
    && t.rejected == s.rejected && s.arrivals !in Ids(t.granted)
  }

  /** Once the bucket is refilled, a request gets a token if one is left, is turned away if the queue is
      full, and else joins it at the end. */
  lemma AdmitDecides(maxQueue: nat, r: State)
    requires Conserved(r)
    ensures var t := Admit(maxQueue, r);
      && (r.tokens >= 1.0 ==> Granted(r, t) && t.granted == r.granted + [Grant(r.arrivals, r.lastRefill)]
                              && t.waitQueue == r.waitQueue && t.tokens == r.tokens - 1.0)
      && (r.tokens < 1.0 ==> t.granted == r.granted && t.tokens == r.tokens)
      && (r.tokens < 1.0 && |r.waitQueue| >= maxQueue ==> TurnedAway(r, t) && t.waitQueue == r.waitQueue)
      && (r.tokens < 1.0 && |r.waitQueue| < maxQueue ==> QueuedLast(r, t) && t.waitQueue == r.waitQueue + [r.arrivals])
  {
    NewcomerIsNew(r);
  }

  lemma NewcomerIsNew(r: State)
    requires Conserved(r)
    ensures r.arrivals !in Ids(r.granted) && r.arrivals !in r.waitQueue
  {
    var ids := Ids(r.granted) + r.waitQueue;
    assert ids == Served(r);
    assert r.arrivals !in ids;
  }

  /** What becomes of the next request, once `reached` waiters were served and a token is left or not. */
  ghost predicate Answered(c: Config, s: State, t: State, reached: int, tokenLeft: bool) {
    && (Granted(s, t) <==> tokenLeft)
    && (TurnedAway(s, t) <==> !tokenLeft && |s.waitQueue| - reached >= c.maxQueue)
    && (QueuedLast(s, t) <==> !tokenLeft && |s.waitQueue| - reached < c.maxQueue)
  }

  lemma AdmitAnswers(c: Config, s: State, r: State, reached: int)
    requires Conserved(r) && r.arrivals == s.arrivals && r.rejected == s.rejected && |r.waitQueue| == |s.waitQueue| - reached
    requires Conserved(s)
    ensures Answered(c, s, Admit(c.maxQueue, r), reached, r.tokens >= 1.0)
    ensures r.granted <= Admit(c.maxQueue, r).granted
  {
    AdmitDecides(c.maxQueue, r);
    NewcomerIsNew(r);
  }

  /** The waiters are served first, then the request is answered. */
  ghost predicate AnsweredInTurn(c: Config, s: State, t: State, now: real) {
    && |t.granted| >= |s.granted| + Reached(c, s, now) >= 0
    && WaitersServed(c, s, now, t.granted[..|s.granted| + Reached(c, s, now)])
    && Answered(c, s, t, Reached(c, s, now), TokenLeft(c, s, now))
  }

  lemma RefilledAnswers(c: Config, s: State, r: State, now: real)
    requires Conserved(s) && Conserved(r) && r.arrivals == s.arrivals && r.rejected == s.rejected
    requires WaitersServed(c, s, now, r.granted) && |r.waitQueue| == |s.waitQueue| - Reached(c, s, now)
    requires TokenLeft(c, s, now) <==> r.tokens >= 1.0
    ensures AnsweredInTurn(c, s, Admit(c.maxQueue, r), now)
  {
    var t := Admit(c.maxQueue, r);
    AdmitAnswers(c, s, r, Reached(c, s, now));
    assert t.granted[..|r.granted|] == r.granted;
  }

  lemma AcquireAnswers(c: Config, s: State, now: real)
    requires Legal(c) && Inv(c, s) && s.lastRefill <= now && !s.destroyed
    ensures AnsweredInTurn(c, s, AcquireAt(c, s, now), now)
  {
    RefillServes(c, s, now);
    RefillInv(c, s, now);
    RefilledAnswers(c, s, Refill(c, s, now), now);
  }

  /** In every run a limiter that was not shut down answers a request so: the waiters before it are served
      as far as the tokens go; it is granted at once exactly if a whole token is left after that, turned away
      exactly if none is left and the queue is still full, and else queued last. */
  lemma RequestIsAnswered(c: Config, ss: seq<State>, es: seq<Event>, i: nat, now: real)
    requires IsRun(c, ss, es) && i < |es| && es[i] == Acquire(now) && !ss[i].destroyed
    ensures AnsweredInTurn(c, ss[i], ss[i + 1], now)
  {
    RunInv(c, ss, es, i);
    assert Enabled(ss[i], es[i]) && ss[i + 1] == AcquireAt(c, ss[i], now);
    AcquireAnswers(c, ss[i], now);
  }

  /** A granted request pays one token, as does every waiter served before it. */
  lemma RequestPays(c: Config, ss: seq<State>, es: seq<Event>, i: nat, now: real)
    requires IsRun(c, ss, es) && i < |es| && es[i] == Acquire(now) && !ss[i].destroyed
    ensures Pays(c, ss[i], ss[i + 1], now)
  {
    RunInv(c, ss, es, i);
    assert Enabled(ss[i], es[i]) && ss[i + 1] == AcquireAt(c, ss[i], now);
    AcquirePays(c, ss[i], now);
  }

  ghost predicate Pays(c: Config, s: State, t: State, now: real) {
    && t.lastRefill == now
    && t.tokens == InHand(c, s, now) - Reached(c, s, now) as real - (if TokenLeft(c, s, now) then 1.0 else 0.0)
  }

  lemma AcquirePays(c: Config, s: State, now: real)
    requires Legal(c) && Inv(c, s) && s.lastRefill <= now && !s.destroyed
    ensures Pays(c, s, AcquireAt(c, s, now), now)
  {
    RefillServes(c, s, now);
  }

  /** In particular a request that finds nobody waiting and a whole token in hand is granted in that step. */
  lemma TokenInHandIsGranted(c: Config, ss: seq<State>, es: seq<Event>, i: nat, now: real)
    requires IsRun(c, ss, es) && i < |es| && es[i] == Acquire(now) && !ss[i].destroyed
    requires ss[i].waitQueue == [] && InHand(c, ss[i], now) >= 1.0
    ensures ss[i + 1].granted == ss[i].granted + [Grant(ss[i].arrivals, now)]
    ensures ss[i + 1].tokens == InHand(c, ss[i], now) - 1.0 && ss[i + 1].waitQueue == []
  {
    RunInv(c, ss, es, i);
    assert Enabled(ss[i], es[i]) && ss[i + 1] == Step(c, ss[i], es[i]);
    RefillServes(c, ss[i], now);
    RefillInv(c, ss[i], now);
    AdmitDecides(c.maxQueue, Refill(c, ss[i], now));
    assert Refill(c, ss[i], now).granted == ss[i].granted;
  }

  /** Requests 0 to n - 1 were granted at `now` and nothing else has happened. */
  ghost predicate BurstOf(c: Config, s: State, n: nat, now: real) {
    && |s.granted| == n == s.arrivals && (forall k :: 0 <= k < n ==> s.granted[k] == Grant(k, now))
    && s.waitQueue == [] && s.rejected == {} && !s.timerArmed && !s.destroyed && s.lastRefill == now
    && s.tokens == c.maxTokens - n as real
  }

  /** A new limiter grants as many requests at one moment as whole tokens fit its bucket. */
  lemma {:induction false} BurstIsGranted(c: Config, ss: seq<State>, es: seq<Event>, n: nat)
    requires IsRun(c, ss, es) && n < |ss| && n as real <= c.maxTokens
    requires forall m :: 0 <= m < n ==> es[m] == Acquire(ss[0].lastRefill)
    ensures BurstOf(c, ss[n], n, ss[0].lastRefill)
    decreases n
  {
    if n > 0 {
      BurstIsGranted(c, ss, es, n - 1);
      assert Enabled(ss[n - 1], es[n - 1]) && ss[n] == Step(c, ss[n - 1], es[n - 1]);
      BurstGoesOn(c, ss[n - 1], n - 1, ss[0].lastRefill);
    }
  }

  lemma BurstGoesOn(c: Config, s: State, n: nat, now: real)
    requires Legal(c) && BurstOf(c, s, n, now) && (n + 1) as real <= c.maxTokens
    ensures BurstOf(c, AcquireAt(c, s, now), n + 1, now)
  {
    RefillAgain(c, s);
    BurstGrants(c, s, n, now);
  }

  /** A second refill at the same moment changes nothing. */
  lemma RefillAgain(c: Config, s: State)
    requires Legal(c) && s.waitQueue == [] && s.tokens <= c.maxTokens
    ensures Refill(c, s, s.lastRefill) == s
  {
    AccruedNothing(c);
    assert s.lastRefill - s.lastRefill == 0.0;
    assert Filled(c, s, s.lastRefill) == s.tokens;
  }

  lemma BurstGrants(c: Config, s: State, n: nat, now: real)
    requires BurstOf(c, s, n, now) && s.tokens >= 1.0
    ensures BurstOf(c, Admit(c.maxQueue, s), n + 1, now)
  {
    var t := Admit(c.maxQueue, s);
    assert t.granted == s.granted + [Grant(n, now)];
  }

  /** A timer tick serves the waiters there are tokens for, and the timer stays armed exactly if some still wait. */
  lemma TickServes(c: Config, ss: seq<State>, es: seq<Event>, i: nat, now: real)
    requires IsRun(c, ss, es) && i < |es| && es[i] == Tick(now)
    ensures var s, t := ss[i], ss[i + 1];
      && WaitersServed(c, s, now, t.granted)
      && t.waitQueue == s.waitQueue[Reached(c, s, now)..] && (t.timerArmed <==> t.waitQueue != [])
      && t.rejected == s.rejected && t.tokens == InHand(c, s, now) - Reached(c, s, now) as real
  {
    RunInv(c, ss, es, i);
    assert Enabled(ss[i], es[i]) && ss[i + 1] == Step(c, ss[i], es[i]);
    RefillServes(c, ss[i], now);
  }

  /** A shutdown turns every waiter away. */
  lemma ShutdownRejectsWaiters(c: Config, ss: seq<State>, es: seq<Event>, i: nat, id: nat)
    requires IsRun(c, ss, es) && i < |es| && es[i] == Destroy
    ensures ss[i + 1].destroyed && (id in ss[i + 1].rejected <==> id in ss[i].rejected || id in ss[i].waitQueue)
  {
    assert ss[i + 1] == Step(c, ss[i], es[i]);
  }

  /** After it nothing is granted or queued any more: every request is turned away. */
  lemma {:induction false} NothingAfterShutdown(c: Config, ss: seq<State>, es: seq<Event>, i: nat, j: nat)
    requires IsRun(c, ss, es) && i <= j < |ss| && ss[i].destroyed
    ensures ss[j].destroyed && ss[j].granted == ss[i].granted && ss[j].waitQueue == [] && !ss[j].timerArmed
    ensures forall id :: ss[i].arrivals <= id < ss[j].arrivals ==> id in ss[j].rejected
    decreases j
  {
    RunInv(c, ss, es, i);
    if i < j {
      NothingAfterShutdown(c, ss, es, i, j - 1);
      assert Enabled(ss[j - 1], es[j - 1]) && ss[j] == Step(c, ss[j - 1], es[j - 1]);
    }
  }
}
