/**
 The token bucket with a wait queue of src/middleware/rate-limiter.ts, over real
 arithmetic and a clock in milliseconds that never runs backwards.

 A limiter answers `acquire` by granting, queueing or rejecting.  Requests are
 numbered by arrival; `granted` and `rejected` record how each one ended.
 */
module RateLimiter {

  /** `accrued(ms)` tokens are earned in `ms` milliseconds. */
  datatype Config = Config(maxTokens: real, maxQueue: nat, accrued: real -> real)

  datatype Grant = Grant(id: nat, time: real)

  datatype State = State(
    tokens: real,
    lastRefill: real,
    waitQueue: seq<nat>,
    timerArmed: bool,
    destroyed: bool,
    arrivals: nat,
    granted: seq<Grant>,
    rejected: set<nat>)

  datatype Event = Acquire(now: real) | Tick(now: real) | Destroy

  /** Tokens are earned at a steady rate. */
  function PerSecond(rate: real): real -> real {
    (ms: real) => ms / 1000.0 * rate
  }

  function Limits(maxBurst: real, refillRate: real, maxQueue: nat): Config {
    Config(maxBurst, maxQueue, PerSecond(refillRate))
  }

  ghost predicate AddsAt(f: real -> real, a: real, b: real) {
    f(a + b) == f(a) + f(b)
  }

  ghost predicate GrowsAt(f: real -> real, a: real) {
    0.0 <= a ==> 0.0 <= f(a)
  }

  /** What the proofs ask of a limiter: nothing is earned twice or lost over time. */
  ghost predicate Legal(c: Config) {
    && c.maxTokens >= 0.0
    && (forall a: real, b: real :: AddsAt(c.accrued, a, b)) && (forall a: real :: GrowsAt(c.accrued, a))
  }

  lemma LimitsAreLegal(maxBurst: real, refillRate: real, maxQueue: nat)
    requires maxBurst >= 0.0 && refillRate >= 0.0
    ensures Legal(Limits(maxBurst, refillRate, maxQueue))
  {
    var f := PerSecond(refillRate);
    forall a: real, b: real ensures AddsAt(f, a, b) {
      assert (a + b) / 1000.0 * refillRate == a / 1000.0 * refillRate + b / 1000.0 * refillRate;
    }
    forall a: real ensures GrowsAt(f, a) {
      if 0.0 <= a { assert 0.0 <= a / 1000.0 * refillRate; }
    }
  }

  function Accrued(c: Config, ms: real): real {
    c.accrued(ms)
  }

  /** How many waiters `tokens` can wake when `waiting` of them queue. */
  function Woken(tokens: real, waiting: nat): (n: nat)
    ensures n <= waiting
    ensures n > 0 ==> n as real <= tokens
    ensures n < waiting ==> tokens - n as real < 1.0
    decreases waiting
  {
    if waiting > 0 && tokens >= 1.0 then 1 + Woken(tokens - 1.0, waiting - 1) else 0
  }

  function Stamp(ids: seq<nat>, now: real): seq<Grant> {
    seq(|ids|, i requires 0 <= i < |ids| => Grant(ids[i], now))
  }

  lemma StampAppends(ids: seq<nat>, n: nat, now: real)
    requires n < |ids|
    ensures Stamp(ids[..n + 1], now) == Stamp(ids[..n], now) + [Grant(ids[n], now)]
  {
  }

  function Filled(c: Config, s: State, now: real): real {
    var t := s.tokens + Accrued(c, now - s.lastRefill);
    if c.maxTokens <= t then c.maxTokens else t
  }

  function Refill(c: Config, s: State, now: real): State {
    var t := Filled(c, s, now);
    var n := Woken(t, |s.waitQueue|);
    s.(tokens := t - n as real, lastRefill := now,
       waitQueue := s.waitQueue[n..], granted := s.granted + Stamp(s.waitQueue[..n], now))
  }

  /** What becomes of a new request once the bucket was refilled. */
  function Admit(maxQueue: nat, r: State): State {
    var id := r.arrivals;
    if r.tokens >= 1.0 then
      r.(tokens := r.tokens - 1.0, arrivals := id + 1, granted := r.granted + [Grant(id, r.lastRefill)])
    else if |r.waitQueue| >= maxQueue then r.(arrivals := id + 1, rejected := r.rejected + {id})
    else r.(arrivals := id + 1, waitQueue := r.waitQueue + [id], timerArmed := true)
  }

  function AcquireAt(c: Config, s: State, now: real): State {
    if s.destroyed then s.(arrivals := s.arrivals + 1, rejected := s.rejected + {s.arrivals})
    else Admit(c.maxQueue, Refill(c, s, now))
  }

  function TickAt(c: Config, s: State, now: real): State {
    var r := Refill(c, s, now);
    if r.waitQueue == [] then r.(timerArmed := false) else r
  }

  function Destroyed(s: State): State {
    s.(destroyed := true, timerArmed := false, waitQueue := [],
       rejected := s.rejected + (set id | id in s.waitQueue))
  }

  predicate Enabled(s: State, e: Event) {
    match e
    case Acquire(now) => s.lastRefill <= now
    case Tick(now) => s.timerArmed && s.lastRefill <= now
    case Destroy => true
  }

  function Step(c: Config, s: State, e: Event): State {
    match e
    case Acquire(now) => AcquireAt(c, s, now)
    case Tick(now) => TickAt(c, s, now)
    case Destroy => Destroyed(s)
  }

  function Fresh(c: Config, now: real): State {
    State(c.maxTokens, now, [], false, false, 0, [], {})
  }

  ghost predicate IsRun(c: Config, ss: seq<State>, es: seq<Event>) {
    && Legal(c)
    && |ss| == |es| + 1
    && ss[0] == Fresh(c, ss[0].lastRefill)
    && forall i {:trigger es[i]} :: 0 <= i < |es| ==> Enabled(ss[i], es[i]) && ss[i + 1] == Step(c, ss[i], es[i])
  }

  // ---------------------------------------------------------------- the class

  class RateLimiter {
    const maxTokens: real
    const refillRate: real
    const maxQueue: nat
    var tokens: real
    var lastRefill: real
    var waitQueue: seq<nat>
    var timerArmed: bool
    var destroyed: bool
    var arrivals: nat
    var granted: seq<Grant>
    var rejected: set<nat>

    function View(): State
      reads this
    {
      State(tokens, lastRefill, waitQueue, timerArmed, destroyed, arrivals, granted, rejected)
    }

    ghost function Config(): Config {
      Limits(maxTokens, refillRate, maxQueue)
    }

    constructor (maxBurst: real, refillRate: real, maxQueue: nat, now: real)
      ensures Config() == Limits(maxBurst, refillRate, maxQueue)
      ensures View() == Fresh(Config(), now)
    {
      this.maxTokens, this.refillRate, this.maxQueue := maxBurst, refillRate, maxQueue;
      tokens, lastRefill := maxBurst, now;
      waitQueue, timerArmed, destroyed := [], false, false;
      arrivals, granted, rejected := 0, [], {};
    }

    method EnsureRefillTimer()
      modifies this`timerArmed
      ensures timerArmed == (old(timerArmed) || waitQueue != [])
    {
      if !timerArmed && |waitQueue| > 0 {
        timerArmed := true;
      }
    }

    /** The loop of `refill` that wakes waiting requests, oldest first. */
    method WakeWaiters(now: real)
      modifies this`tokens, this`waitQueue, this`granted
      ensures var n := Woken(old(tokens), |old(waitQueue)|);
        && tokens == old(tokens) - n as real
        && waitQueue == old(waitQueue)[n..]
        && granted == old(granted) + Stamp(old(waitQueue)[..n], now)
    {
      ghost var t, q, log, n: nat := tokens, waitQueue, granted, 0;
      while |waitQueue| > 0 && tokens >= 1.0
        invariant n <= |q| && waitQueue == q[n..] && tokens == t - n as real
        invariant Woken(t, |q|) == n + Woken(tokens, |waitQueue|)
        invariant granted == log + Stamp(q[..n], now)
        decreases |waitQueue|
      {
        StampAppends(q, n, now);
        assert waitQueue[1..] == q[n + 1..];
        tokens := tokens - 1.0;
        var waiter := waitQueue[0];
        waitQueue := waitQueue[1..];
        granted := granted + [Grant(waiter, now)];
        n := n + 1;
      }
    }

    /** The bucket fills up to its cap for the time since the last refill. */
    method Fill(now: real)
      modifies this`tokens, this`lastRefill
      ensures tokens == Filled(Config(), old(View()), now) && lastRefill == now
    {
      var elapsed := (now - lastRefill) / 1000.0;
      lastRefill := now;
      var filled := tokens + elapsed * refillRate;
      tokens := if maxTokens <= filled then maxTokens else filled;
    }

    method RefillNow(now: real)
      modifies this`tokens, this`lastRefill, this`waitQueue, this`granted
      ensures View() == Refill(Config(), old(View()), now)
    {
      Fill(now);
      WakeWaiters(now);
    }

    /** The part of `acquire` after the refill. */
    method AdmitNow()
      modifies this`tokens, this`waitQueue, this`granted, this`timerArmed, this`arrivals, this`rejected
      ensures View() == Admit(maxQueue, old(View()))
    {
      var id := arrivals;
      arrivals := id + 1;
      if tokens >= 1.0 {
        tokens := tokens - 1.0;
        granted := granted + [Grant(id, lastRefill)];
        return;
      }
      if |waitQueue| >= maxQueue {
        rejected := rejected + {id};
        return;
      }
      waitQueue := waitQueue + [id];
      EnsureRefillTimer();
    }

    method AcquireNow(now: real)
      modifies this`tokens, this`lastRefill, this`waitQueue, this`granted, this`timerArmed, this`arrivals, this`rejected
      ensures View() == AcquireAt(Config(), old(View()), now)
    {
      if destroyed {
        rejected := rejected + {arrivals};
        arrivals := arrivals + 1;
        return;
      }
      RefillNow(now);
      AdmitNow();
    }

    /** The interval callback. */
    method TimerTick(now: real)
      requires timerArmed
      modifies this`tokens, this`lastRefill, this`waitQueue, this`granted, this`timerArmed
      ensures View() == TickAt(Config(), old(View()), now)
    {
      RefillNow(now);
      if |waitQueue| == 0 && timerArmed {
        timerArmed := false;
      }
    }

    method DestroyNow()
      modifies this`destroyed, this`timerArmed, this`waitQueue, this`rejected
      ensures View() == Destroyed(old(View()))
    {
      destroyed := true;
      if timerArmed {
        timerArmed := false;
      }
      ghost var before := rejected;
      for i := 0 to |waitQueue|
        invariant waitQueue == old(waitQueue) && destroyed && !timerArmed
        invariant rejected == before + (set id | id in waitQueue[..i])
        invariant before == old(rejected)
      {
        assert waitQueue[..i + 1] == waitQueue[..i] + [waitQueue[i]];
        rejected := rejected + {waitQueue[i]};
      }
      assert waitQueue[..|waitQueue|] == waitQueue;
      waitQueue := [];
    }

    /** One event reaches the limiter. */
    method Deliver(e: Event)
      requires Enabled(View(), e)
      modifies this
      ensures View() == Step(Config(), old(View()), e)
    {
      match e {
        case Acquire(now) => AcquireNow(now);
        case Tick(now) => TimerTick(now);
        case Destroy => DestroyNow();
      }
    }
  }

  // ---------------------------------------------------------------- the invariant

  ghost predicate TokensInRange(c: Config, s: State) {
    0.0 <= s.tokens <= c.maxTokens
  }

  ghost predicate QueueKept(c: Config, s: State) {
    && |s.waitQueue| <= c.maxQueue
    && (s.waitQueue != [] ==> s.timerArmed && s.tokens < 1.0)
    && (s.destroyed ==> s.waitQueue == [] && !s.timerArmed)
  }

  /** The requests in the order they were granted, then those still waiting. */
  function Served(s: State): seq<nat> {
    Ids(s.granted) + s.waitQueue
  }

  function Ids(g: seq<Grant>): (ids: seq<nat>)
    ensures |ids| == |g|
  {
    seq(|g|, i requires 0 <= i < |g| => g[i].id)
  }

  ghost predicate Ascending(ids: seq<nat>, bound: nat) {
    && (forall i, j :: 0 <= i < j < |ids| ==> ids[i] < ids[j])
    && (forall i :: 0 <= i < |ids| ==> ids[i] < bound)
  }

  /** Arrival order is kept, and every arrival is granted, waiting or rejected, only one of them. */
  ghost predicate Conserved(s: State) {
    && Ascending(Served(s), s.arrivals)
    && (forall id: nat :: id < s.arrivals <==> id in Served(s) || id in s.rejected)
    && (forall id :: id in s.rejected ==> id !in Served(s))
  }

  ghost predicate Timely(s: State) {
    && (forall i, j :: 0 <= i <= j < |s.granted| ==> s.granted[i].time <= s.granted[j].time)
    && (forall i :: 0 <= i < |s.granted| ==> s.granted[i].time <= s.lastRefill)
  }

  /** The grants since `granted[i]`, and the tokens in hand, were paid for since then. */
  ghost predicate Budget(c: Config, s: State) {
    forall i :: 0 <= i < |s.granted| ==>
      (|s.granted| - i) as real + s.tokens <= c.maxTokens + Accrued(c, s.lastRefill - s.granted[i].time)
  }

  ghost predicate Spread(c: Config, g: seq<Grant>) {
    forall i, j :: 0 <= i <= j < |g| ==>
      (j - i + 1) as real <= c.maxTokens + Accrued(c, g[j].time - g[i].time)
  }

  ghost predicate Bounded(c: Config, s: State) {
    TokensInRange(c, s) && Timely(s) && Budget(c, s) && Spread(c, s.granted)
  }

  ghost predicate Inv(c: Config, s: State) {
    QueueKept(c, s) && Conserved(s) && Bounded(c, s)
  }

  lemma AccruedAdds(c: Config, a: real, b: real)
    requires Legal(c)
    ensures Accrued(c, a + b) == Accrued(c, a) + Accrued(c, b)
  {
    assert AddsAt(c.accrued, a, b);
  }

  lemma AccruedNothing(c: Config)
    requires Legal(c)
    ensures Accrued(c, 0.0) == 0.0
  {
    AccruedAdds(c, 0.0, 0.0);
  }

  lemma AccruedGrows(c: Config, a: real)
    requires Legal(c) && 0.0 <= a
    ensures 0.0 <= Accrued(c, a)
  {
    assert GrowsAt(c.accrued, a);
  }

  lemma AccruedBound(c: Config, ms: real, d: real)
    requires Legal(c) && ms <= d
    ensures Accrued(c, ms) <= Accrued(c, d)
  {
    AccruedAdds(c, ms, d - ms);
    AccruedGrows(c, d - ms);
    assert ms + (d - ms) == d;
  }

  /** Time passes: the bucket fills, nothing is granted yet. */
  function Wait(c: Config, s: State, now: real): State {
    s.(tokens := Filled(c, s, now), lastRefill := now)
  }

  lemma WaitBudget(c: Config, s: State, now: real)
    requires Legal(c) && Inv(c, s) && s.lastRefill <= now
    ensures Bounded(c, Wait(c, s, now))
  {
    var w := Wait(c, s, now);
    AccruedGrows(c, now - s.lastRefill);
    forall i | 0 <= i < |s.granted|
      ensures (|s.granted| - i) as real + w.tokens <= c.maxTokens + Accrued(c, now - s.granted[i].time)
    {
      AccruedAdds(c, s.lastRefill - s.granted[i].time, now - s.lastRefill);
    }
  }

  /** One grant, paid from the bucket. */
  lemma GrantBudget(c: Config, s: State, id: nat)
    requires Legal(c) && Bounded(c, s) && s.tokens >= 1.0
    ensures Bounded(c, s.(tokens := s.tokens - 1.0, granted := s.granted + [Grant(id, s.lastRefill)]))
  {
    var g := s.(tokens := s.tokens - 1.0, granted := s.granted + [Grant(id, s.lastRefill)]);
    var n := |s.granted|;
    AccruedNothing(c);
    assert g.granted[n].time == s.lastRefill;
    forall i | 0 <= i < |g.granted|
      ensures (|g.granted| - i) as real + g.tokens <= c.maxTokens + Accrued(c, g.lastRefill - g.granted[i].time)
    {
      if i < n { assert g.granted[i] == s.granted[i]; }
    }
    forall i, j | 0 <= i <= j < |g.granted|
      ensures (j - i + 1) as real <= c.maxTokens + Accrued(c, g.granted[j].time - g.granted[i].time)
    {
      if j < n { assert g.granted[i] == s.granted[i] && g.granted[j] == s.granted[j]; }
      else if i < n { assert g.granted[i] == s.granted[i]; }
    }
  }

  /** The waiters woken one by one. */
  function Wake(s: State, n: nat): State
    requires n <= |s.waitQueue|
  {
    s.(tokens := s.tokens - n as real, waitQueue := s.waitQueue[n..],
       granted := s.granted + Stamp(s.waitQueue[..n], s.lastRefill))
  }

  lemma WakeNext(s: State, n: nat)
    requires 0 < n <= |s.waitQueue|
    ensures var w := Wake(s, n - 1);
      Wake(s, n).(waitQueue := w.waitQueue) ==
        w.(tokens := w.tokens - 1.0, granted := w.granted + [Grant(s.waitQueue[n - 1], w.lastRefill)])
  {
    StampAppends(s.waitQueue, n - 1, s.lastRefill);
  }

  lemma BoundedIgnoresQueue(c: Config, s: State, queue: seq<nat>)
    requires Bounded(c, s.(waitQueue := queue))
    ensures Bounded(c, s)
  {
  }

  lemma {:induction false} WakeBudget(c: Config, s: State, n: nat)
    requires Legal(c) && Bounded(c, s)
    requires n <= |s.waitQueue| && (n > 0 ==> n as real <= s.tokens)
    ensures Bounded(c, Wake(s, n))
    decreases n
  {
    if n == 0 {
      assert Wake(s, 0) == s;
    } else {
      WakeBudget(c, s, n - 1);
      var w := Wake(s, n - 1);
      GrantBudget(c, w, s.waitQueue[n - 1]);
      WakeNext(s, n);
      BoundedIgnoresQueue(c, Wake(s, n), w.waitQueue);
    }
  }

  lemma RefillInv(c: Config, s: State, now: real)
    requires Legal(c) && Inv(c, s) && s.lastRefill <= now
    ensures Inv(c, Refill(c, s, now))
    ensures Served(Refill(c, s, now)) == Served(s)
  {
    var w := Wait(c, s, now);
    var n := Woken(w.tokens, |s.waitQueue|);
    var r := Refill(c, s, now);
    WaitBudget(c, s, now);
    WakeBudget(c, w, n);
    assert r == Wake(w, n);
    assert Ids(r.granted) == Ids(s.granted) + s.waitQueue[..n];
    assert Served(r) == Served(s);
  }

  /** The next arrival joins the served ones, or is rejected. */
  lemma ArrivalConserved(s: State, t: State)
    requires Conserved(s) && t.arrivals == s.arrivals + 1
    requires || (Served(t) == Served(s) + [s.arrivals] && t.rejected == s.rejected)
             || (Served(t) == Served(s) && t.rejected == s.rejected + {s.arrivals})
    ensures Conserved(t)
  {
    var n := |Served(s)|;
    forall i | 0 <= i < n ensures Served(t)[i] == Served(s)[i] {}
    assert s.arrivals !in Served(s);
    if Served(t) == Served(s) + [s.arrivals] {
      assert Served(t)[n] == s.arrivals;
      assert s.arrivals !in s.rejected;
    }
  }

  lemma GrantInv(c: Config, r: State, id: nat)
    requires Legal(c) && Inv(c, r) && r.tokens >= 1.0 && id == r.arrivals
    ensures Inv(c, r.(tokens := r.tokens - 1.0, arrivals := id + 1, granted := r.granted + [Grant(id, r.lastRefill)]))
  {
    var t := r.(tokens := r.tokens - 1.0, arrivals := id + 1, granted := r.granted + [Grant(id, r.lastRefill)]);
    GrantBudget(c, r, id);
    assert Ids(t.granted) == Ids(r.granted) + [id];
    assert Served(t) == Served(r) + [id];
    ArrivalConserved(r, t);
  }

  lemma QueueInv(c: Config, r: State, id: nat)
    requires Inv(c, r) && r.tokens < 1.0 && !r.destroyed && |r.waitQueue| < c.maxQueue && id == r.arrivals
    ensures Inv(c, r.(arrivals := id + 1, waitQueue := r.waitQueue + [id], timerArmed := true))
  {
    var t := r.(arrivals := id + 1, waitQueue := r.waitQueue + [id], timerArmed := true);
    assert Served(t) == Served(r) + [id];
    ArrivalConserved(r, t);
  }

  lemma RejectInv(c: Config, r: State, id: nat)
    requires Inv(c, r) && id == r.arrivals
    ensures Inv(c, r.(arrivals := id + 1, rejected := r.rejected + {id}))
  {
    var t := r.(arrivals := id + 1, rejected := r.rejected + {id});
    assert Served(t) == Served(r);
    ArrivalConserved(r, t);
  }

  lemma AdmitInv(c: Config, r: State)
    requires Legal(c) && Inv(c, r) && !r.destroyed
    ensures Inv(c, Admit(c.maxQueue, r))
  {
    if r.tokens >= 1.0 {
      GrantInv(c, r, r.arrivals);
    } else if |r.waitQueue| < c.maxQueue {
      QueueInv(c, r, r.arrivals);
    } else {
      RejectInv(c, r, r.arrivals);
    }
  }

  lemma AcquireInv(c: Config, s: State, now: real)
    requires Legal(c) && Inv(c, s) && s.lastRefill <= now
    ensures Inv(c, AcquireAt(c, s, now))
  {
    if s.destroyed {
      RejectInv(c, s, s.arrivals);
    } else {
      RefillInv(c, s, now);
      AdmitInv(c, Refill(c, s, now));
    }
  }

  /** A part cut off an ascending list shares nothing with what is left. */
  lemma CutDisjoint(a: seq<nat>, b: seq<nat>, bound: nat, id: nat)
    requires Ascending(a + b, bound) && id in b
    ensures id !in a && id < bound
  {
    var k :| 0 <= k < |b| && b[k] == id;
    assert (a + b)[|a| + k] == id;
    assert forall j :: 0 <= j < |a| ==> a[j] == (a + b)[j] < (a + b)[|a| + k];
  }

  lemma CutAscending(a: seq<nat>, b: seq<nat>, bound: nat)
    requires Ascending(a + b, bound)
    ensures Ascending(a, bound)
  {
    assert forall i :: 0 <= i < |a| ==> (a + b)[i] == a[i];
  }

  lemma DestroyConserved(s: State)
    requires Conserved(s)
    ensures Conserved(Destroyed(s))
  {
    var t := Destroyed(s);
    var a, b := Ids(s.granted), s.waitQueue;
    assert Served(t) == a && Served(s) == a + b;
    CutAscending(a, b, s.arrivals);
    forall id | id in b ensures id !in a && id < s.arrivals {
      CutDisjoint(a, b, s.arrivals, id);
    }
    assert forall id :: id in a + b <==> id in a || id in b;
  }

  lemma DestroyInv(c: Config, s: State)
    requires Inv(c, s)
    ensures Inv(c, Destroyed(s))
  {
    DestroyConserved(s);
  }

  lemma StepInv(c: Config, s: State, e: Event)
    requires Legal(c) && Inv(c, s) && Enabled(s, e)
    ensures Inv(c, Step(c, s, e))
  {
    match e {
      case Acquire(now) => AcquireInv(c, s, now);
      case Tick(now) =>
        RefillInv(c, s, now);
        assert Served(TickAt(c, s, now)) == Served(Refill(c, s, now));
      case Destroy => DestroyInv(c, s);
    }
  }

  lemma {:induction false} RunInv(c: Config, ss: seq<State>, es: seq<Event>, i: nat)
    requires IsRun(c, ss, es) && i < |ss|
    ensures Inv(c, ss[i])
    decreases i
  {
    if i > 0 {
      RunInv(c, ss, es, i - 1);
      assert ss[i] == Step(c, ss[i - 1], es[i - 1]);
      StepInv(c, ss[i - 1], es[i - 1]);
    }
  }

  // ---------------------------------------------------------------- the claims, over every run

  /** How many grants of `g` fall between the moments `from` and `to`, both included. */
  function CountBetween(g: seq<Grant>, from: real, to: real): nat {
    if g == [] then 0
    else CountBetween(g[..|g| - 1], from, to) + (if from <= g[|g| - 1].time <= to then 1 else 0)
  }

  /** The grants of a window are neighbours in the log: they all stand at or after some place `i`. */
  ghost predicate CountStartsAt(g: seq<Grant>, from: real, to: real, i: int) {
    0 <= i < |g| && from <= g[i].time && CountBetween(g, from, to) <= |g| - i
  }

  lemma {:induction false} CountStarts(g: seq<Grant>, from: real, to: real) returns (i: int)
    requires CountBetween(g, from, to) > 0
    ensures CountStartsAt(g, from, to, i)
    decreases |g|
  {
    var h, last := g[..|g| - 1], g[|g| - 1];
    if CountBetween(h, from, to) > 0 {
      i := CountStarts(h, from, to);
    } else {
      i := |h|;
    }
  }

  /** So their count is at most the distance from that place to the last of them. */
  lemma {:induction false} CountIsSpread(c: Config, g: seq<Grant>, from: real, to: real)
    requires Legal(c) && from <= to && Spread(c, g)
    ensures CountBetween(g, from, to) as real <= c.maxTokens + Accrued(c, to - from)
    decreases |g|
  {
    AccruedGrows(c, to - from);
    if g != [] {
      var h, last := g[..|g| - 1], g[|g| - 1];
      if from <= last.time <= to {
        var i := CountStarts(g, from, to);
        SpreadWithin(c, g, from, to, i);
      } else {
        SpreadPrefix(c, g);
        CountIsSpread(c, h, from, to);
      }
    }
  }

  lemma SpreadPrefix(c: Config, g: seq<Grant>)
    requires g != [] && Spread(c, g)
    ensures Spread(c, g[..|g| - 1])
  {
  }

  lemma SpreadWithin(c: Config, g: seq<Grant>, from: real, to: real, i: int)
    requires Legal(c) && g != [] && Spread(c, g) && 0 <= i < |g| && from <= g[i].time && g[|g| - 1].time <= to
    ensures (|g| - i) as real <= c.maxTokens + Accrued(c, to - from)
  {
    var n := |g| - 1;
    assert (n - i + 1) as real <= c.maxTokens + Accrued(c, g[n].time - g[i].time);
    AccruedBound(c, g[n].time - g[i].time, to - from);
  }

  /** In any window of time at most `maxTokens + refillRate * window` acquires are granted, directly
      or out of the queue, and the bucket never leaves its range. */
  lemma WindowBound(
    maxBurst: real, rate: real, maxQueue: nat, ss: seq<State>, es: seq<Event>, i: nat, from: real, to: real)
    requires IsRun(Limits(maxBurst, rate, maxQueue), ss, es) && i < |ss| && from <= to
    ensures CountBetween(ss[i].granted, from, to) as real <= maxBurst + (to - from) / 1000.0 * rate
    ensures 0.0 <= ss[i].tokens <= maxBurst
  {
    var c := Limits(maxBurst, rate, maxQueue);
    RunInv(c, ss, es, i);
    CountIsSpread(c, ss[i].granted, from, to);
  }

  /** Requests are granted in arrival order and none overtakes a waiting one; each arrival is granted,
      waiting or rejected, and only one of these; the queue is bounded and never left without a timer. */
  lemma ServedInOrder(c: Config, ss: seq<State>, es: seq<Event>, i: nat)
    requires IsRun(c, ss, es) && i < |ss|
    ensures var s := ss[i];
      && (forall a, b :: 0 <= a < b < |s.granted| ==> s.granted[a].id < s.granted[b].id)
      && (forall a, b :: 0 <= a < |s.granted| && 0 <= b < |s.waitQueue| ==> s.granted[a].id < s.waitQueue[b])
      && (forall a, b :: 0 <= a < b < |s.waitQueue| ==> s.waitQueue[a] < s.waitQueue[b])
      && (forall id: nat :: id < s.arrivals ==> (id in Ids(s.granted) || id in s.waitQueue || id in s.rejected))
      && (forall id :: id in s.rejected ==> id !in Ids(s.granted) && id !in s.waitQueue)
      && |s.waitQueue| <= c.maxQueue
      && (s.waitQueue != [] ==> s.timerArmed && !s.destroyed)
  {
    RunInv(c, ss, es, i);
    var s := ss[i];
    var n := |s.granted|;
    forall a | 0 <= a < n ensures Served(s)[a] == s.granted[a].id {}
    forall b | 0 <= b < |s.waitQueue| ensures Served(s)[n + b] == s.waitQueue[b] {}
    forall a, b | 0 <= a < b < n ensures s.granted[a].id < s.granted[b].id {
      assert Served(s)[a] < Served(s)[b];
    }
    forall a, b | 0 <= a < n && 0 <= b < |s.waitQueue| ensures s.granted[a].id < s.waitQueue[b] {
      assert Served(s)[a] < Served(s)[n + b];
    }
    forall a, b | 0 <= a < b < |s.waitQueue| ensures s.waitQueue[a] < s.waitQueue[b] {
      assert Served(s)[n + a] < Served(s)[n + b];
    }
    forall id | id in s.rejected ensures id !in Ids(s.granted) && id !in s.waitQueue {
      assert forall a :: 0 <= a < n ==> Ids(s.granted)[a] == Served(s)[a];
    }
  }

  /** The grants and rejections of `s` are kept, and the clock did not run back. */
  ghost predicate Kept(s: State, t: State) {
    s.granted <= t.granted && s.rejected <= t.rejected && s.lastRefill <= t.lastRefill
  }

  lemma RefillKeeps(c: Config, s: State, now: real)
    requires s.lastRefill <= now
    ensures Kept(s, Refill(c, s, now))
  {
  }

  lemma AdmitKeeps(maxQueue: nat, r: State)
    ensures Kept(r, Admit(maxQueue, r))
  {
  }

  lemma StepKeeps(c: Config, s: State, e: Event)
    requires Enabled(s, e)
    ensures Kept(s, Step(c, s, e))
  {
    if !e.Destroy? {
      RefillKeeps(c, s, e.now);
      AdmitKeeps(c.maxQueue, Refill(c, s, e.now));
    }
  }

  /** What was granted or rejected stays so. */
  lemma {:induction false} OutcomesAreFinal(c: Config, ss: seq<State>, es: seq<Event>, i: nat, j: nat)
    requires IsRun(c, ss, es) && i <= j < |ss|
    ensures ss[i].granted <= ss[j].granted && ss[i].rejected <= ss[j].rejected && ss[i].lastRefill <= ss[j].lastRefill
    decreases j
  {
    if i < j {
      OutcomesAreFinal(c, ss, es, i, j - 1);
      assert Enabled(ss[j - 1], es[j - 1]) && ss[j] == Step(c, ss[j - 1], es[j - 1]);
      StepKeeps(c, ss[j - 1], es[j - 1]);
    }
  }

  /** Since `s0`, the waiter then at position `k` has moved up by one place per grant, and no token was lost. */
  ghost predicate MovedUp(c: Config, s0: State, s: State, k: nat)
    requires k < |s0.waitQueue|
  {
    var g := |s.granted| - |s0.granted|;
    && 0 <= g <= k < |s.waitQueue| + g
    && s.waitQueue[k - g] == s0.waitQueue[k]
    && s.tokens + g as real == s0.tokens + Accrued(c, s.lastRefill - s0.lastRefill)
  }

  lemma RefillMovesUp(c: Config, s0: State, s: State, k: nat, now: real)
    requires Legal(c) && Inv(c, s) && k < |s0.waitQueue| && MovedUp(c, s0, s, k) && s.lastRefill <= now
    requires Accrued(c, now - s.lastRefill) <= c.maxTokens - 1.0
    ensures var r := Refill(c, s, now); MovedUp(c, s0, r, k) || s0.waitQueue[k] in Ids(r.granted)
  {
    var g := |s.granted| - |s0.granted|;
    var r := Refill(c, s, now);
    AccruedAdds(c, s.lastRefill - s0.lastRefill, now - s.lastRefill);
    assert Filled(c, s, now) == s.tokens + Accrued(c, now - s.lastRefill);
    var n := Woken(Filled(c, s, now), |s.waitQueue|);
    if n <= k - g {
      assert r.waitQueue[k - g - n] == s.waitQueue[k - g];
    } else {
      assert r.granted[|s.granted| + (k - g)].id == s.waitQueue[k - g];
      assert Ids(r.granted)[|s.granted| + (k - g)] == s.waitQueue[k - g];
    }
  }

  lemma StepMovesUp(c: Config, s0: State, s: State, k: nat, e: Event)
    requires Legal(c) && Inv(c, s) && k < |s0.waitQueue| && MovedUp(c, s0, s, k) && Enabled(s, e) && !e.Destroy?
    requires Accrued(c, e.now - s.lastRefill) <= c.maxTokens - 1.0
    ensures var t := Step(c, s, e); MovedUp(c, s0, t, k) || s0.waitQueue[k] in Ids(t.granted)
  {
    RefillMovesUp(c, s0, s, k, e.now);
    RefillInv(c, s, e.now);
    var r := Refill(c, s, e.now);
    var t := Step(c, s, e);
    if s0.waitQueue[k] in Ids(r.granted) {
      var i :| 0 <= i < |r.granted| && Ids(r.granted)[i] == s0.waitQueue[k];
      assert Ids(t.granted)[i] == s0.waitQueue[k];
    }
  }

  lemma StillGranted(s: State, t: State, id: nat)
    requires Kept(s, t) && id in Ids(s.granted)
    ensures id in Ids(t.granted)
  {
    var m :| 0 <= m < |s.granted| && Ids(s.granted)[m] == id;
    assert Ids(t.granted)[m] == id;
  }

  lemma NextMovesUp(c: Config, s0: State, s: State, k: nat, e: Event)
    requires Legal(c) && Inv(c, s) && k < |s0.waitQueue| && Enabled(s, e) && !e.Destroy?
    requires MovedUp(c, s0, s, k) || s0.waitQueue[k] in Ids(s.granted)
    requires Accrued(c, e.now - s.lastRefill) <= c.maxTokens - 1.0
    ensures var t := Step(c, s, e); MovedUp(c, s0, t, k) || s0.waitQueue[k] in Ids(t.granted)
  {
    if s0.waitQueue[k] in Ids(s.granted) {
      StepKeeps(c, s, e);
      StillGranted(s, Step(c, s, e), s0.waitQueue[k]);
    } else {
      StepMovesUp(c, s0, s, k, e);
    }
  }

  lemma {:induction false} WaiterMovesUp(c: Config, ss: seq<State>, es: seq<Event>, i: nat, j: nat, k: nat)
    requires IsRun(c, ss, es) && i <= j < |ss| && k < |ss[i].waitQueue|
    requires forall m {:trigger es[m]} :: i <= m < j ==>
      !es[m].Destroy? && Accrued(c, es[m].now - ss[m].lastRefill) <= c.maxTokens - 1.0
    ensures MovedUp(c, ss[i], ss[j], k) || ss[i].waitQueue[k] in Ids(ss[j].granted)
    decreases j
  {
    if i == j {
      AccruedNothing(c);
    } else {
      WaiterMovesUp(c, ss, es, i, j - 1, k);
      RunInv(c, ss, es, j - 1);
      assert Enabled(ss[j - 1], es[j - 1]) && ss[j] == Step(c, ss[j - 1], es[j - 1]);
      NextMovesUp(c, ss[i], ss[j - 1], k, es[j - 1]);
    }
  }

  lemma AccruedEnough(rate: real, ms: real, n: real)
    requires rate > 0.0 && ms >= n / rate * 1000.0
    ensures PerSecond(rate)(ms) >= n
  {
    var base := n / rate;
    assert base * rate == n;
    assert (ms / 1000.0 - base) * rate >= 0.0;
    assert ms / 1000.0 * rate == (ms / 1000.0 - base) * rate + base * rate;
  }

  /** No waiter starves: when refills come at most `d` apart and `rate * d <= maxBurst - 1`, the waiter at
      position `k` is granted by the first refill `(k + 1) / rate` seconds later. */
  lemma WaiterIsGranted(
    maxBurst: real, rate: real, maxQueue: nat, ss: seq<State>, es: seq<Event>, i: nat, j: nat, k: nat, d: real)
    requires IsRun(Limits(maxBurst, rate, maxQueue), ss, es) && i <= j < |ss| && k < |ss[i].waitQueue| && rate > 0.0
    requires forall m {:trigger es[m]} :: i <= m < j ==> !es[m].Destroy? && es[m].now - ss[m].lastRefill <= d
    requires d / 1000.0 * rate <= maxBurst - 1.0
    requires ss[j].lastRefill >= ss[i].lastRefill + (k + 1) as real / rate * 1000.0
    ensures ss[i].waitQueue[k] in Ids(ss[j].granted)
  {
    var c := Limits(maxBurst, rate, maxQueue);
    assert Accrued(c, d) == d / 1000.0 * rate;
    AccruedEnough(rate, ss[j].lastRefill - ss[i].lastRefill, (k + 1) as real);
    WaiterGrantedBy(c, ss, es, i, j, k, d);
  }

  lemma WaiterGrantedBy(c: Config, ss: seq<State>, es: seq<Event>, i: nat, j: nat, k: nat, d: real)
    requires IsRun(c, ss, es) && i <= j < |ss| && k < |ss[i].waitQueue|
    requires forall m {:trigger es[m]} :: i <= m < j ==> !es[m].Destroy? && es[m].now - ss[m].lastRefill <= d
    requires Accrued(c, d) <= c.maxTokens - 1.0
    requires Accrued(c, ss[j].lastRefill - ss[i].lastRefill) >= (k + 1) as real
    ensures ss[i].waitQueue[k] in Ids(ss[j].granted)
  {
    forall m {:trigger es[m]} | i <= m < j ensures Accrued(c, es[m].now - ss[m].lastRefill) <= c.maxTokens - 1.0 {
      AccruedBound(c, es[m].now - ss[m].lastRefill, d);
    }
    WaiterMovesUp(c, ss, es, i, j, k);
    if MovedUp(c, ss[i], ss[j], k) {
      RunInv(c, ss, es, i);
      RunInv(c, ss, es, j);
      assert false;
    }
  }
}
