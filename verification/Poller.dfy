/**
 The resource poller of src/resources/poller.ts: a self-rescheduling timer whose
 callback data six CCU lists, remembers a hash of each and reports the ones that
 changed.  Hashes are taken as injective, so the data stands for its own hash.

 A poll is `Fire` (up to the first await), `ReadAll` (the loop over the resources)
 and `Settle` (after the notification); `stop` may come between any two of them.
 */
module Poller {
  import opened Wrappers

  datatype Resource = Devices | Rooms | Functions | Programs | SysVars | Interfaces

  const POLLABLE: seq<Resource> := [Devices, Rooms, Functions, Programs, SysVars, Interfaces]

  const MAX_BACKOFF_MULTIPLIER: nat := 10

  type Session = nat

  /** What one cycle saw: the session it asked, and the data of every read that succeeded. */
  datatype Cycle = Cycle(session: Session, data: map<Resource, string>)

  datatype Poll = Reading(session: Session) | Notifying

  datatype State = State(
    hashes: map<Resource, string>,
    hashedSession: Option<Session>,
    consecutiveFailures: nat,
    timer: Option<nat>,
    armed: map<nat, nat>,
    handles: nat,
    polls: seq<Poll>,
    history: seq<Cycle>,
    reported: seq<seq<Resource>>)

  datatype Event = Start | Stop | Fire(handle: nat, session: Session) | ReadAll(i: nat, data: map<Resource, string>) | Settle(i: nat)

  function Lookup<K, V>(m: map<K, V>, k: K): Option<V> {
    if k in m then Some(m[k]) else None
  }

  function Index(r: Resource): (k: nat)
    ensures k < |POLLABLE| && POLLABLE[k] == r
  {
    match r
    case Devices => 0
    case Rooms => 1
    case Functions => 2
    case Programs => 3
    case SysVars => 4
    case Interfaces => 5
  }

  predicate Differs(before: Option<string>, now: Option<string>) {
    before.Some? && now.Some? && before != now
  }

  function Changed(rs: seq<Resource>, hashes: map<Resource, string>, data: map<Resource, string>): seq<Resource> {
    if rs == [] then []
    else
      var r := rs[|rs| - 1];
      Changed(rs[..|rs| - 1], hashes, data) + (if Differs(Lookup(hashes, r), Lookup(data, r)) then [r] else [])
  }

  predicate AnyFailed(data: map<Resource, string>) {
    exists r: Resource :: r !in data
  }

  function Pow2(n: nat): (p: nat)
    ensures p >= 1
  {
    if n == 0 then 1 else 2 * Pow2(n - 1)
  }

  /** How much longer than the base interval the next delay is after `f` failing cycles in a row. */
  function Multiplier(f: nat): nat {
    if f == 0 then 1 else if Pow2(f - 1) < MAX_BACKOFF_MULTIPLIER then Pow2(f - 1) else MAX_BACKOFF_MULTIPLIER
  }

  // ---------------------------------------------------------------- steps

  function Schedule(s: State, delay: nat): State {
    s.(timer := Some(s.handles), armed := s.armed[s.handles := delay], handles := s.handles + 1)
  }

  function Stopped(s: State): State {
    if s.timer.Some? then s.(armed := s.armed - {s.timer.value}, timer := None) else s
  }

  function Begun(s: State, handle: nat, session: Session): State {
    var s1 := s.(armed := s.armed - {handle}, polls := s.polls + [Reading(session)]);
    if s.hashedSession == Some(session) then s1 else s1.(hashes := map[], hashedSession := Some(session))
  }

  function Read(s: State, i: nat, data: map<Resource, string>): State
    requires i < |s.polls| && s.polls[i].Reading?
  {
    s.(hashes := s.hashes + data,
       consecutiveFailures := if AnyFailed(data) then s.consecutiveFailures + 1 else 0,
       polls := s.polls[i := Notifying],
       history := s.history + [Cycle(s.polls[i].session, data)],
       reported := s.reported + [Changed(POLLABLE, s.hashes, data)])
  }

  function Settled(interval: nat, s: State, i: nat): State
    requires i < |s.polls|
  {
    var s1 := s.(polls := s.polls[..i] + s.polls[i + 1..]);
    if s.timer.Some? then Schedule(s1, interval * 1000 * Multiplier(s.consecutiveFailures)) else s1
  }

  /** What the event loop can deliver; the program starts a poller only while none is running. */
  predicate Enabled(s: State, e: Event) {
    match e
    case Start => s.timer == None && s.polls == []
    case Stop => true
    case Fire(handle, _) => handle in s.armed
    case ReadAll(i, _) => i < |s.polls| && s.polls[i].Reading?
    case Settle(i) => i < |s.polls| && s.polls[i].Notifying?
  }

  function Step(interval: nat, s: State, e: Event): State
    requires e.Start? || Enabled(s, e)
  {
    match e
    case Start => Schedule(s, interval * 1000)
    case Stop => Stopped(s)
    case Fire(handle, session) => Begun(s, handle, session)
    case ReadAll(i, data) => Read(s, i, data)
    case Settle(i) => Settled(interval, s, i)
  }

  function Initial(): State {
    State(map[], None, 0, None, map[], 0, [], [], [])
  }

  ghost predicate IsRun(interval: nat, ss: seq<State>, es: seq<Event>) {
    && |ss| == |es| + 1 && ss[0] == Initial()
    && forall i {:trigger es[i]} :: 0 <= i < |es| ==> Enabled(ss[i], es[i]) && ss[i + 1] == Step(interval, ss[i], es[i])
  }

  // ---------------------------------------------------------------- the class

  /** `armed`, `handles` and `polls` are the event loop's; `history` and `reported` record the run. */
  class ResourcePoller {
    const interval: nat
    var hashes: map<Resource, string>
    var hashedSession: Option<Session>
    var consecutiveFailures: nat
    var timer: Option<nat>
    var armed: map<nat, nat>
    var handles: nat
    var polls: seq<Poll>
    ghost var history: seq<Cycle>
    ghost var reported: seq<seq<Resource>>

    ghost function View(): State
      reads this
    {
      State(hashes, hashedSession, consecutiveFailures, timer, armed, handles, polls, history, reported)
    }

    constructor (interval: nat)
      ensures View() == Initial() && this.interval == interval
    {
      this.interval := interval;
      hashes, hashedSession, consecutiveFailures, timer := map[], None, 0, None;
      armed, handles, polls, history, reported := map[], 0, [], [], [];
    }

    method ScheduleIn(delay: nat)
      modifies this
      ensures View() == Schedule(old(View()), delay)
    {
      armed := armed[handles := delay];
      timer := Some(handles);
      handles := handles + 1;
    }

    method StartPolling()
      modifies this
      ensures View() == Step(interval, old(View()), Start)
    {
      ScheduleIn(interval * 1000);
    }

    method StopPolling()
      modifies this
      ensures View() == Step(interval, old(View()), Stop)
    {
      if timer.Some? {
        armed := armed - {timer.value};
        timer := None;
      }
    }

    method BeginPoll(handle: nat, session: Session)
      requires handle in armed
      modifies this
      ensures View() == Step(interval, old(View()), Fire(handle, session))
    {
      armed := armed - {handle};
      polls := polls + [Reading(session)];
      if hashedSession != Some(session) {
        hashes := map[];
        hashedSession := Some(session);
      }
    }

    /** The loop of one poll; a resource missing from `data` is one whose read failed. */
    method ReadResources(data: map<Resource, string>) returns (changedUris: seq<Resource>, anyFailed: bool)
      modifies this`hashes
      ensures hashes == old(hashes) + data
      ensures changedUris == Changed(POLLABLE, old(hashes), data)
      ensures anyFailed <==> AnyFailed(data)
    {
      changedUris, anyFailed := [], false;
      PolledAll(data);
      for k := 0 to |POLLABLE|
        invariant hashes == old(hashes) + Polled(k, data)
        invariant changedUris == Changed(POLLABLE[..k], old(hashes), data)
        invariant anyFailed <==> FailedBefore(k, data)
      {
        var r := POLLABLE[k];
        FailedNext(k, data);
        ReadNext(k, old(hashes), data);
        if r in data {
          var prev := Lookup(hashes, r);
          hashes := hashes[r := data[r]];
          if prev.Some? && prev.value != data[r] {
            changedUris := changedUris + [r];
          }
        } else {
          anyFailed := true;
        }
      }
      assert POLLABLE[..|POLLABLE|] == POLLABLE;
      PolledAll(data);
    }

    method EndReads(i: nat, data: map<Resource, string>) returns (changedUris: seq<Resource>)
      requires i < |polls| && polls[i].Reading?
      modifies this
      ensures View() == Step(interval, old(View()), ReadAll(i, data))
      ensures changedUris == Changed(POLLABLE, old(hashes), data)
    {
      var anyFailed;
      changedUris, anyFailed := ReadResources(data);
      consecutiveFailures := if anyFailed then consecutiveFailures + 1 else 0;
      history := history + [Cycle(polls[i].session, data)];
      reported := reported + [changedUris];
      polls := polls[i := Notifying];
    }

    method SettlePoll(i: nat)
      requires i < |polls| && polls[i].Notifying?
      modifies this
      ensures View() == Step(interval, old(View()), Settle(i))
    {
      polls := polls[..i] + polls[i + 1..];
      if timer.Some? {
        var multiplier := 1;
        if consecutiveFailures > 0 {
          var p := Pow2(consecutiveFailures - 1);
          multiplier := if p < MAX_BACKOFF_MULTIPLIER then p else MAX_BACKOFF_MULTIPLIER;
        }
        ScheduleIn(interval * 1000 * multiplier);
      }
    }
  }

  /** The data of the first `k` resources. */
  ghost function Polled(k: nat, data: map<Resource, string>): map<Resource, string> {
    map r: Resource | r in data && Index(r) < k :: data[r]
  }

  /** One turn of the loop. */
  lemma ReadNext(k: nat, before: map<Resource, string>, data: map<Resource, string>)
    requires k < |POLLABLE|
    ensures var r, sofar := POLLABLE[k], before + Polled(k, data);
      && before + Polled(k + 1, data) == (if r in data then sofar[r := data[r]] else sofar)
      && Lookup(sofar, r) == Lookup(before, r)
      && Changed(POLLABLE[..k + 1], before, data) ==
           Changed(POLLABLE[..k], before, data) + (if Differs(Lookup(before, r), Lookup(data, r)) then [r] else [])
  {
    PolledNext(k, data);
    assert POLLABLE[..k + 1][..k] == POLLABLE[..k];
  }

  /** One of the first `k` reads failed. */
  ghost predicate FailedBefore(k: nat, data: map<Resource, string>) {
    exists r: Resource :: Index(r) < k && r !in data
  }

  lemma FailedNext(k: nat, data: map<Resource, string>)
    requires k < |POLLABLE|
    ensures FailedBefore(k + 1, data) <==> FailedBefore(k, data) || POLLABLE[k] !in data
  {
    PolledNext(k, data);
  }

  lemma PolledAll(data: map<Resource, string>)
    ensures Polled(0, data) == map[] && Polled(|POLLABLE|, data) == data
    ensures !FailedBefore(0, data) && (FailedBefore(|POLLABLE|, data) <==> AnyFailed(data))
  {
    assert forall r: Resource :: Index(r) < |POLLABLE|;
  }

  lemma PolledNext(k: nat, data: map<Resource, string>)
    requires k < |POLLABLE|
    ensures var r := POLLABLE[k];
      && Index(r) == k && (forall q: Resource :: Index(q) < k + 1 <==> Index(q) < k || q == r)
      && Polled(k + 1, data) == (if r in data then Polled(k, data)[r := data[r]] else Polled(k, data))
      && r !in Polled(k, data)
  {
    var r := POLLABLE[k];
    assert Index(r) == k;
    assert forall q: Resource :: Index(q) == k ==> q == POLLABLE[Index(q)] == r;
  }

  // ---------------------------------------------------------------- the history

  /** The last data read for `r` in the closing stretch of cycles that all asked session `s`. */
  function LastRead(h: seq<Cycle>, s: Session, r: Resource): Option<string> {
    if h == [] then None
    else
      var c := h[|h| - 1];
      if c.session != s then None
      else if r in c.data then Some(c.data[r])
      else LastRead(h[..|h| - 1], s, r)
  }

  /** Cycle `k` read `v`, and later ones, on the same session, did not read `r` at all. */
  ghost predicate LastReadAt(h: seq<Cycle>, s: Session, r: Resource, v: string, k: int) {
    && 0 <= k < |h| && r in h[k].data && h[k].data[r] == v
    && (forall j :: k <= j < |h| ==> h[j].session == s)
    && (forall j :: k < j < |h| ==> r !in h[j].data)
  }

  lemma LastReadEarlier(h: seq<Cycle>, c: Cycle, s: Session, r: Resource, v: string, k: nat)
    requires c.session == s && r !in c.data && k < |h|
    ensures LastReadAt(h + [c], s, r, v, k) <==> LastReadAt(h, s, r, v, k)
  {
    assert forall j :: 0 <= j < |h| ==> (h + [c])[j] == h[j];
    assert (h + [c])[|h|] == c;
  }

  lemma {:induction false} LastReadMeans(h: seq<Cycle>, s: Session, r: Resource, v: string)
    ensures LastRead(h, s, r) == Some(v) <==> exists k :: LastReadAt(h, s, r, v, k)
    decreases |h|
  {
    if h != [] {
      var u, c := h[..|h| - 1], h[|h| - 1];
      assert h == u + [c];
      LastReadMeans(u, s, r, v);
      if c.session == s && r !in c.data {
        forall k: nat | k < |u| ensures LastReadAt(h, s, r, v, k) <==> LastReadAt(u, s, r, v, k) {
          LastReadEarlier(u, c, s, r, v, k);
        }
      } else if c.session == s && c.data[r] == v {
        assert LastReadAt(h, s, r, v, |u|);
      }
    }
  }

  /** How many cycles in a row, up to the last, had a failing read. */
  function Trailing(h: seq<Cycle>): nat {
    if h == [] || ReadAllSix(h[|h| - 1].data) then 0 else 1 + Trailing(h[..|h| - 1])
  }

  predicate ReadAllSix(data: map<Resource, string>) {
    Devices in data && Rooms in data && Functions in data && Programs in data && SysVars in data && Interfaces in data
  }

  lemma FailedOrAllSix(data: map<Resource, string>)
    ensures AnyFailed(data) <==> !ReadAllSix(data)
  {
    if r: Resource :| r !in data {
      assert r in POLLABLE by { assert POLLABLE[Index(r)] == r; }
    }
  }

  /** A report lists exactly the resources whose data differs, in the order they are polled. */
  ghost predicate IsReport(report: seq<Resource>, h: seq<Cycle>, c: Cycle) {
    && (forall r: Resource :: r in report <==> Differs(LastRead(h, c.session, r), Lookup(c.data, r)))
    && (forall i, j :: 0 <= i < j < |report| ==> Index(report[i]) < Index(report[j]))
  }

  lemma {:induction false} ChangedMeans(n: nat, hashes: map<Resource, string>, data: map<Resource, string>)
    requires n <= |POLLABLE|
    ensures var c := Changed(POLLABLE[..n], hashes, data);
      && (forall r: Resource :: r in c <==> Index(r) < n && Differs(Lookup(hashes, r), Lookup(data, r)))
      && (forall i, j :: 0 <= i < j < |c| ==> Index(c[i]) < Index(c[j]))
    decreases n
  {
    if n > 0 {
      ChangedMeans(n - 1, hashes, data);
      assert POLLABLE[..n][..n - 1] == POLLABLE[..n - 1];
      var r := POLLABLE[n - 1];
      assert Index(r) == n - 1;
      var init := Changed(POLLABLE[..n - 1], hashes, data);
      assert forall i :: 0 <= i < |init| ==> init[i] in init;
      assert forall q: Resource :: Index(q) == n - 1 ==> q == r;
    }
  }

  // ---------------------------------------------------------------- the invariant

  /** One chain: a running poller has one armed timer or one poll, a stopped one has no timer. */
  ghost predicate OneChain(s: State) {
    && (s.timer == None ==> s.armed == map[] && |s.polls| <= 1)
    && (s.timer.Some? ==> (s.armed.Keys == {s.timer.value} && s.polls == []) || (s.armed == map[] && |s.polls| == 1))
  }

  /** The hashes are the last reads since the session switched. */
  ghost predicate HashesAreLastReads(s: State) {
    && (s.hashedSession == None ==> s.history == [] && s.hashes == map[] && s.polls == [])
    && (s.hashedSession.Some? ==>
          forall r: Resource :: Lookup(s.hashes, r) == LastRead(s.history, s.hashedSession.value, r))
    && (forall i :: 0 <= i < |s.polls| && s.polls[i].Reading? ==> s.hashedSession == Some(s.polls[i].session))
    && ((forall i :: 0 <= i < |s.polls| ==> s.polls[i].Notifying?) && s.history != [] ==>
          s.hashedSession == Some(s.history[|s.history| - 1].session))
  }

  ghost predicate Recorded(s: State) {
    && |s.reported| == |s.history|
    && s.consecutiveFailures == Trailing(s.history)
    && forall k :: 0 <= k < |s.history| ==> IsReport(s.reported[k], s.history[..k], s.history[k])
  }

  /** Handles are not used twice. */
  ghost predicate Fresh(s: State) {
    forall h :: h in s.armed ==> h < s.handles
  }

  ghost predicate Inv(s: State) {
    OneChain(s) && Fresh(s) && HashesAreLastReads(s) && Recorded(s)
  }

  lemma ChainStep(interval: nat, s: State, e: Event)
    requires OneChain(s) && Enabled(s, e)
    ensures OneChain(Step(interval, s, e))
  {
    match e
    case Fire(handle, _) =>
      assert s.timer == Some(handle);
      assert s.armed - {handle} == map[];
    case Stop =>
      if s.timer.Some? { assert s.armed - {s.timer.value} == map[]; }
    case _ =>
  }

  lemma LastReadNow(h: seq<Cycle>, c: Cycle, s: Session, r: Resource)
    ensures LastRead(h + [c], s, r) ==
              if c.session != s then None else if r in c.data then Some(c.data[r]) else LastRead(h, s, r)
  {
    assert (h + [c])[..|h|] == h;
  }

  lemma ReadHashes(s: State, i: nat, data: map<Resource, string>)
    requires OneChain(s) && HashesAreLastReads(s) && i < |s.polls| && s.polls[i].Reading?
    ensures HashesAreLastReads(Read(s, i, data))
  {
    assert i == 0 && |s.polls| == 1;
    forall r: Resource
      ensures Lookup(s.hashes + data, r) == LastRead(s.history + [Cycle(s.polls[i].session, data)], s.polls[i].session, r)
    {
      LastReadNow(s.history, Cycle(s.polls[i].session, data), s.polls[i].session, r);
    }
  }

  lemma BegunHashes(s: State, handle: nat, session: Session)
    requires HashesAreLastReads(s) && s.polls == []
    ensures HashesAreLastReads(Begun(s, handle, session))
  {
    assert Begun(s, handle, session).polls[0] == Reading(session);
  }

  lemma HashStep(interval: nat, s: State, e: Event)
    requires OneChain(s) && HashesAreLastReads(s) && Enabled(s, e)
    ensures HashesAreLastReads(Step(interval, s, e))
  {
    match e
    case ReadAll(i, data) => ReadHashes(s, i, data);
    case Fire(handle, session) => BegunHashes(s, handle, session);
    case Settle(i) => assert i == 0 && |s.polls| == 1;
    case _ =>
  }

  lemma ReadRecorded(s: State, i: nat, data: map<Resource, string>)
    requires OneChain(s) && HashesAreLastReads(s) && Recorded(s) && i < |s.polls| && s.polls[i].Reading?
    ensures Recorded(Read(s, i, data))
  {
    var n := |s.history|;
    var s1 := Read(s, i, data);
    var c := Cycle(s.polls[i].session, data);
    FailedOrAllSix(data);
    assert s1.history[..n] == s.history && s1.history[n] == c;
    assert POLLABLE[..|POLLABLE|] == POLLABLE;
    ChangedMeans(|POLLABLE|, s.hashes, data);
    forall k | 0 <= k < |s1.history| ensures IsReport(s1.reported[k], s1.history[..k], s1.history[k]) {
      if k < n {
        assert s1.history[..k] == s.history[..k];
        assert s1.reported[k] == s.reported[k];
        assert IsReport(s.reported[k], s.history[..k], s.history[k]);
      }
    }
  }

  lemma StepInv(interval: nat, s: State, e: Event)
    requires Inv(s) && Enabled(s, e)
    ensures Inv(Step(interval, s, e))
  {
    ChainStep(interval, s, e);
    HashStep(interval, s, e);
    if e.ReadAll? {
      ReadRecorded(s, e.i, e.data);
    }
  }

  lemma {:induction false} RunInv(interval: nat, ss: seq<State>, es: seq<Event>, i: nat)
    requires IsRun(interval, ss, es) && i < |ss|
    ensures Inv(ss[i])
    decreases i
  {
    if i > 0 {
      RunInv(interval, ss, es, i - 1);
      assert ss[i] == Step(interval, ss[i - 1], es[i - 1]);
      StepInv(interval, ss[i - 1], es[i - 1]);
    }
  }

  // ---------------------------------------------------------------- the claims, over every run

  /** In every cycle a resource is reported exactly when it was read, had been read before since the
      session last switched, and the data differ; reports are in polling order, without repeats. */
  lemma ReportedExactly(interval: nat, ss: seq<State>, es: seq<Event>, i: nat, k: nat)
    requires IsRun(interval, ss, es) && i < |ss| && k < |ss[i].history|
    ensures |ss[i].reported| == |ss[i].history|
    ensures forall r: Resource ::
      var c := ss[i].history[k];
      var before := LastRead(ss[i].history[..k], c.session, r);
      r in ss[i].reported[k] <==> before.Some? && r in c.data && c.data[r] != before.value
    ensures forall x, y :: 0 <= x < y < |ss[i].reported[k]| ==> Index(ss[i].reported[k][x]) < Index(ss[i].reported[k][y])
  {
    RunInv(interval, ss, es, i);
    assert IsReport(ss[i].reported[k], ss[i].history[..k], ss[i].history[k]);
  }

  /** The documented back-off: 1, 2, 4, 8 and at most 10 times the base interval. */
  predicate BacksOff(failures: nat, factor: nat) {
    && (failures <= 1 ==> factor == 1) && (failures == 2 ==> factor == 2) && (failures == 3 ==> factor == 4)
    && (failures == 4 ==> factor == 8) && (failures >= 5 ==> factor == 10)
  }

  lemma {:induction false} Pow2Large(n: nat)
    requires n >= 4
    ensures Pow2(n) >= 16
    decreases n
  {
    if n == 4 {
      assert Pow2(2) == 4 && Pow2(3) == 8;
    } else {
      Pow2Large(n - 1);
    }
  }

  lemma MultiplierBacksOff(f: nat)
    ensures BacksOff(f, Multiplier(f))
  {
    if f >= 5 {
      Pow2Large(f - 1);
    } else {
      assert Pow2(1) == 2 && Pow2(2) == 4 && Pow2(3) == 8;
    }
  }

  /** A cycle that settles while the poller runs arms one timer, delayed by the failing cycles so far. */
  lemma BackoffIsExact(interval: nat, ss: seq<State>, es: seq<Event>, i: nat) returns (factor: nat)
    requires IsRun(interval, ss, es) && i < |es| && es[i].Settle? && ss[i].timer.Some?
    ensures BacksOff(Trailing(ss[i].history), factor)
    ensures ss[i + 1].timer.Some? && ss[i + 1].armed == map[ss[i + 1].timer.value := interval * 1000 * factor]
  {
    RunInv(interval, ss, es, i);
    assert Enabled(ss[i], es[i]) && ss[i + 1] == Step(interval, ss[i], es[i]);
    factor := Multiplier(Trailing(ss[i].history));
    MultiplierBacksOff(Trailing(ss[i].history));
  }

  /** The first poll comes one base interval after the start. */
  lemma FirstPollAfterInterval(interval: nat, ss: seq<State>, es: seq<Event>, i: nat)
    requires IsRun(interval, ss, es) && i < |es| && es[i] == Start
    ensures ss[i + 1].timer.Some? && ss[i + 1].armed == map[ss[i + 1].timer.value := interval * 1000]
  {
    RunInv(interval, ss, es, i);
    assert Enabled(ss[i], es[i]) && ss[i + 1] == Step(interval, ss[i], es[i]);
  }

  /** While it runs there is one armed timer or one poll under way, never both, never two. */
  lemma OneChainAlways(interval: nat, ss: seq<State>, es: seq<Event>, i: nat)
    requires IsRun(interval, ss, es) && i < |ss|
    ensures |ss[i].armed| + |ss[i].polls| <= 1
    ensures ss[i].timer.Some? ==> |ss[i].armed| + |ss[i].polls| == 1
  {
    RunInv(interval, ss, es, i);
    if ss[i].armed != map[] {
      assert ss[i].armed.Keys == {ss[i].timer.value};
      assert |ss[i].armed| == |ss[i].armed.Keys|;
    }
  }

  /** After stop() no timer is armed again, even if a poll was under way; at most that poll still ends. */
  lemma {:induction false} StopIsFinal(interval: nat, ss: seq<State>, es: seq<Event>, i: nat, j: nat)
    requires IsRun(interval, ss, es) && i < j < |ss| && es[i] == Stop
    requires forall m :: i < m < j ==> es[m] != Start
    ensures ss[j].timer == None && ss[j].armed == map[]
    ensures |ss[j].history| + (if ss[j].polls != [] && ss[j].polls[0].Reading? then 1 else 0) <= |ss[i].history| + 1
    decreases j
  {
    RunInv(interval, ss, es, j - 1);
    assert Enabled(ss[j - 1], es[j - 1]) && ss[j] == Step(interval, ss[j - 1], es[j - 1]);
    if j > i + 1 {
      StopIsFinal(interval, ss, es, i, j - 1);
    } else {
      ChainStep(interval, ss[i], Stop);
    }
  }

  /** A start keeps the chain single exactly when no timer is active and no poll under way. */
  lemma StartKeepsChainExactly(interval: nat, s: State)
    requires OneChain(s) && Fresh(s)
    ensures OneChain(Step(interval, s, Start)) <==> s.timer == None && s.polls == []
  {
    var t := Step(interval, s, Start);
    assert s.handles in t.armed.Keys && s.handles !in s.armed;
    if s.timer.Some? && s.polls == [] {
      assert s.timer.value in t.armed.Keys;
    }
  }

  /** The events after a bad start that end with a stop: the poll under way, if any, first runs out. */
  function UpToStop(s: State, data: map<Resource, string>): seq<Event> {
    if s.polls == [] then [Start, Stop]
    else if s.polls[0].Reading? then [Start, ReadAll(0, data), Settle(0), Stop]
    else [Start, Settle(0), Stop]
  }

  /** `es`, taken from `s` in spite of a start that comes too early, ends in `t`. */
  ghost predicate LeadsTo(interval: nat, s: State, es: seq<Event>, t: State)
    decreases |es|
  {
    if es == [] then s == t
    else (es[0].Start? || Enabled(s, es[0])) && LeadsTo(interval, Step(interval, s, es[0]), es[1..], t)
  }

  lemma TwoTimersLeak(interval: nat, s: State)
    requires s.timer.Some? && (exists h :: h in s.armed && h != s.timer.value)
    ensures Step(interval, s, Stop).armed != map[] && Step(interval, s, Stop).timer == None
  {
    var h :| h in s.armed && h != s.timer.value;
    assert h in Step(interval, s, Stop).armed;
  }

  lemma SettleLeaks(interval: nat, s: State)
    requires s.timer.Some? && |s.polls| == 1 && s.polls[0].Notifying? && s.timer.value in s.armed && Fresh(s)
    ensures var t := Step(interval, s, Settle(0)); t.timer.Some? && exists h :: h in t.armed && h != t.timer.value
  {
    assert s.timer.value in Step(interval, s, Settle(0)).armed;
  }

  /** After any other start stop() is not final: some events later it leaves a timer armed. */
  lemma BadStartLeaks(interval: nat, s: State, data: map<Resource, string>) returns (t: State)
    requires OneChain(s) && Fresh(s) && !(s.timer == None && s.polls == [])
    ensures LeadsTo(interval, s, UpToStop(s, data), t) && t.timer == None && t.armed != map[]
  {
    var s1 := Step(interval, s, Start);
    var es := UpToStop(s, data);
    if s.polls == [] {
      assert s.timer.value in s1.armed;
      t := Step(interval, s1, Stop);
      TwoTimersLeak(interval, s1);
      assert es[1..] == [Stop] && es[1..][1..] == [];
    } else if s.polls[0].Reading? {
      var s2 := Step(interval, s1, ReadAll(0, data));
      var s3 := Step(interval, s2, Settle(0));
      SettleLeaks(interval, s2);
      TwoTimersLeak(interval, s3);
      t := Step(interval, s3, Stop);
      assert es[1..] == [ReadAll(0, data), Settle(0), Stop] && es[1..][1..] == [Settle(0), Stop];
      LeadsLast(interval, s2, Settle(0), t);
    } else {
      var s2 := Step(interval, s1, Settle(0));
      SettleLeaks(interval, s1);
      TwoTimersLeak(interval, s2);
      t := Step(interval, s2, Stop);
      assert es[1..] == [Settle(0), Stop];
      LeadsLast(interval, s1, Settle(0), t);
    }
  }

  lemma LeadsLast(interval: nat, s: State, e: Event, t: State)
    requires Enabled(s, e) && t == Step(interval, Step(interval, s, e), Stop)
    ensures LeadsTo(interval, s, [e, Stop], t)
  {
    assert [e, Stop][1..] == [Stop] && [Stop][1..] == [];
    assert LeadsTo(interval, t, [], t);
    assert LeadsTo(interval, Step(interval, s, e), [Stop], t);
  }

  lemma ExtendRun(interval: nat, ss: seq<State>, es: seq<Event>, e: Event)
    requires IsRun(interval, ss, es) && Enabled(ss[|es|], e)
    ensures IsRun(interval, ss + [Step(interval, ss[|es|], e)], es + [e])
  {
  }

  /** Such a state is reached: stopped in the middle of a poll, a restart makes the next stop() leave a timer. */
  lemma RestartMidPollForks(interval: nat, session: Session, data: map<Resource, string>)
    returns (ss: seq<State>, es: seq<Event>, t: State)
    ensures es == [Start, Fire(0, session), Stop] && IsRun(interval, ss, es)
    ensures ss[3].timer == None && ss[3].polls == [Reading(session)]
    ensures LeadsTo(interval, ss[3], UpToStop(ss[3], data), t) && t.timer == None && t.armed != map[]
  {
    var s0 := Initial();
    var s1 := Step(interval, s0, Start);
    var s2 := Step(interval, s1, Fire(0, session));
    assert IsRun(interval, [s0], []);
    ExtendRun(interval, [s0], [], Start);
    ExtendRun(interval, [s0] + [s1], [] + [Start], Fire(0, session));
    ExtendRun(interval, [s0] + [s1] + [s2], [] + [Start] + [Fire(0, session)], Stop);
    es := [] + [Start] + [Fire(0, session)] + [Stop];
    ss := [s0] + [s1] + [s2] + [Step(interval, s2, Stop)];
    RunInv(interval, ss, es, 3);
    t := BadStartLeaks(interval, ss[3], data);
  }
}
