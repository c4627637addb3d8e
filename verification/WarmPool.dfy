/**
 Warming the device-type cache (src/cache/device-type-cache.ts): collecting one
 device per type, and the bounded pool of workers that queries each type.

 A worker runs from one `await` to the next without interruption, so a step of the
 pool is: one query ends, and its worker takes the next index or finishes.
 */
module WarmPool {
  import opened Wrappers

  const WARM_CONCURRENCY: nat := 3

  datatype Device = Device(kind: string, children: seq<string>)

  /** One interface, whether a token could be had for listing it, and the listing unless that failed. */
  datatype Iface = Iface(name: string, acquired: bool, listing: Option<seq<Device>>)

  datatype Entry = Entry(kind: string, iface: string, channels: seq<string>)

  datatype Fetched = Fetched(iface: string, content: string)

  // ---------------------------------------------------------------- one device per type

  /** The devices with channels of one listing. */
  function TopLevel(iface: string, devices: seq<Device>): seq<Entry> {
    if devices == [] then []
    else
      var d := devices[|devices| - 1];
      TopLevel(iface, devices[..|devices| - 1]) + (if d.children == [] then [] else [Entry(d.kind, iface, d.children)])
  }

  /** The devices with channels of every interface that could be listed, in order. */
  function Candidates(ifaces: seq<Iface>): seq<Entry> {
    if ifaces == [] then []
    else
      var f := ifaces[|ifaces| - 1];
      Candidates(ifaces[..|ifaces| - 1]) + (if f.listing.Some? then TopLevel(f.name, f.listing.value) else [])
  }

  predicate HasKind(es: seq<Entry>, kind: string) {
    exists i :: 0 <= i < |es| && es[i].kind == kind
  }

  /** Keep the first entry of every kind. */
  function FirstOfEach(es: seq<Entry>): seq<Entry> {
    if es == [] then []
    else
      var init := FirstOfEach(es[..|es| - 1]);
      if HasKind(init, es[|es| - 1].kind) then init else init + [es[|es| - 1]]
  }

  predicate IsFirst(es: seq<Entry>, k: nat) {
    k < |es| && forall j :: 0 <= j < k ==> es[j].kind != es[k].kind
  }

  /** `at[i]` is where the `i`-th kept entry stands. */
  ghost predicate Picks(es: seq<Entry>, kept: seq<Entry>, at: seq<nat>) {
    && |at| == |kept|
    && (forall i :: 0 <= i < |at| ==> IsFirst(es, at[i]) && kept[i] == es[at[i]])
    && (forall i, j :: 0 <= i < j < |at| ==> at[i] < at[j])
    && (forall k :: 0 <= k < |es| ==> HasKind(kept, es[k].kind))
  }

  lemma PicksSkip(es: seq<Entry>, e: Entry, kept: seq<Entry>, at: seq<nat>)
    requires Picks(es, kept, at) && HasKind(kept, e.kind)
    ensures Picks(es + [e], kept, at)
  {
    var fs := es + [e];
    assert forall k :: 0 <= k < |es| ==> fs[k] == es[k];
    assert forall i :: 0 <= i < |at| ==> IsFirst(es, at[i]) && IsFirst(fs, at[i]);
  }

  lemma PicksAdd(es: seq<Entry>, e: Entry, kept: seq<Entry>, at: seq<nat>)
    requires Picks(es, kept, at) && !HasKind(kept, e.kind)
    ensures Picks(es + [e], kept + [e], at + [|es|])
  {
    var fs, more := es + [e], kept + [e];
    assert forall k :: 0 <= k < |es| ==> fs[k] == es[k];
    assert forall i :: 0 <= i < |at| ==> IsFirst(es, at[i]) && IsFirst(fs, at[i]);
    forall j | 0 <= j < |es| ensures es[j].kind != e.kind {
      assert HasKind(kept, es[j].kind);
    }
    assert IsFirst(fs, |es|);
    forall k | 0 <= k < |fs| ensures HasKind(more, fs[k].kind) {
      if k < |es| {
        assert HasKind(kept, es[k].kind);
        var i :| 0 <= i < |kept| && kept[i].kind == es[k].kind;
        assert more[i].kind == fs[k].kind;
      } else {
        assert more[|kept|].kind == fs[k].kind;
      }
    }
  }

  lemma {:induction false} FirstOfEachPicks(es: seq<Entry>) returns (at: seq<nat>)
    ensures Picks(es, FirstOfEach(es), at)
    decreases |es|
  {
    if es == [] {
      at := [];
    } else {
      var u, e := es[..|es| - 1], es[|es| - 1];
      assert es == u + [e];
      at := FirstOfEachPicks(u);
      if HasKind(FirstOfEach(u), e.kind) {
        PicksSkip(u, e, FirstOfEach(u), at);
      } else {
        PicksAdd(u, e, FirstOfEach(u), at);
        at := at + [|u|];
      }
    }
  }

  lemma FirstOfEachDistinct(es: seq<Entry>)
    ensures var kept := FirstOfEach(es);
      forall i, j :: 0 <= i < j < |kept| ==> kept[i].kind != kept[j].kind
  {
    var kept := FirstOfEach(es);
    var at := FirstOfEachPicks(es);
    forall i, j | 0 <= i < j < |kept| ensures kept[i].kind != kept[j].kind {
      assert IsFirst(es, at[j]) && at[i] < at[j] && kept[i] == es[at[i]];
    }
  }

  /** The collected list has an entry for exactly the types some listing shows with channels, each the
      first of its type in interface-then-device order, and the list is in that order. */
  lemma CollectsFirstPerType(ifaces: seq<Iface>, kind: string)
    ensures var all, kept := Candidates(ifaces), FirstOfEach(Candidates(ifaces));
      && (HasKind(kept, kind) <==> HasKind(all, kind))
      && (forall i, j :: 0 <= i < j < |kept| ==> kept[i].kind != kept[j].kind)
      && (exists at: seq<nat> :: Picks(all, kept, at))
  {
    var all := Candidates(ifaces);
    var kept := FirstOfEach(all);
    var at := FirstOfEachPicks(all);
    FirstOfEachDistinct(all);
    if HasKind(kept, kind) {
      var i :| 0 <= i < |kept| && kept[i].kind == kind;
      assert all[at[i]].kind == kind;
    }
  }

  lemma {:induction false} TopLevelMeans(iface: string, devices: seq<Device>, e: Entry)
    ensures e in TopLevel(iface, devices) <==>
              e.iface == iface && e.channels != [] && Device(e.kind, e.channels) in devices
    decreases |devices|
  {
    if devices != [] {
      var init, d := devices[..|devices| - 1], devices[|devices| - 1];
      TopLevelMeans(iface, init, e);
      assert devices == init + [d];
    }
  }

  /** What a candidate is: a device with channels in a listing that succeeded. */
  lemma {:induction false} CandidatesMeans(ifaces: seq<Iface>, e: Entry)
    ensures e in Candidates(ifaces) <==>
              (exists f :: f in ifaces && f.listing.Some? && f.name == e.iface && e.channels != [] && Device(e.kind, e.channels) in f.listing.value)
    decreases |ifaces|
  {
    if ifaces != [] {
      var init, f := ifaces[..|ifaces| - 1], ifaces[|ifaces| - 1];
      CandidatesMeans(init, e);
      assert ifaces == init + [f];
      if f.listing.Some? {
        TopLevelMeans(f.name, f.listing.value, e);
      }
    }
  }

  lemma {:induction false} TopLevelInOrder(iface: string, a: seq<Device>, b: seq<Device>)
    ensures TopLevel(iface, a + b) == TopLevel(iface, a) + TopLevel(iface, b)
    decreases |b|
  {
    if b == [] {
      assert a + b == a;
    } else {
      assert (a + b)[..|a + b| - 1] == a + b[..|b| - 1];
      TopLevelInOrder(iface, a, b[..|b| - 1]);
    }
  }

  /** Candidates come in the order of the interfaces, */
  lemma {:induction false} CandidatesInOrder(a: seq<Iface>, b: seq<Iface>)
    ensures Candidates(a + b) == Candidates(a) + Candidates(b)
    decreases |b|
  {
    if b == [] {
      assert a + b == a;
    } else {
      assert (a + b)[..|a + b| - 1] == a + b[..|b| - 1];
      CandidatesInOrder(a, b[..|b| - 1]);
    }
  }

  /** and for each interface in the order of its listing. */
  lemma ListingInOrder(name: string, acquired: bool, x: seq<Device>, y: seq<Device>)
    ensures Candidates([Iface(name, acquired, Some(x + y))]) ==
      Candidates([Iface(name, acquired, Some(x))]) + Candidates([Iface(name, acquired, Some(y))])
  {
    TopLevelInOrder(name, x, y);
    OneListing(Iface(name, acquired, Some(x + y)));
    OneListing(Iface(name, acquired, Some(x)));
    OneListing(Iface(name, acquired, Some(y)));
  }

  lemma OneListing(f: Iface)
    requires f.listing.Some?
    ensures Candidates([f]) == TopLevel(f.name, f.listing.value)
  {
    assert [f][..0] == [];
  }

  /** Adding to what is kept and keeping from what is added agree. */
  lemma FirstOfEachAppend(es: seq<Entry>, e: Entry)
    ensures FirstOfEach(es + [e]) ==
              if HasKind(FirstOfEach(es), e.kind) then FirstOfEach(es) else FirstOfEach(es) + [e]
  {
    assert (es + [e])[..|es|] == es;
  }

  /** The collecting loops of `warm`: an interface that cannot be listed is skipped, but having no token
      for one ends the warm-up. */
  method CollectTypes(ifaces: seq<Iface>) returns (r: Option<seq<Entry>>)
    ensures r.Some? <==> forall f :: f in ifaces ==> f.acquired
    ensures r.Some? ==> r.value == FirstOfEach(Candidates(ifaces))
  {
    var byType: seq<Entry> := [];
    for i := 0 to |ifaces|
      invariant byType == FirstOfEach(Candidates(ifaces[..i]))
      invariant forall j :: 0 <= j < i ==> ifaces[j].acquired
    {
      var f := ifaces[i];
      assert ifaces[..i + 1][..i] == ifaces[..i];
      if !f.acquired {
        return None;
      }
      if f.listing.Some? {
        byType := CollectDevices(Candidates(ifaces[..i]), byType, f.name, f.listing.value);
      } else {
        assert Candidates(ifaces[..i + 1]) == Candidates(ifaces[..i]);
      }
    }
    assert ifaces[..|ifaces|] == ifaces;
    r := Some(byType);
  }

  method CollectDevices(ghost before: seq<Entry>, byType: seq<Entry>, iface: string, devices: seq<Device>) returns (r: seq<Entry>)
    requires byType == FirstOfEach(before)
    ensures r == FirstOfEach(before + TopLevel(iface, devices))
  {
    r := byType;
    assert before + [] == before;
    for k := 0 to |devices|
      invariant r == FirstOfEach(before + TopLevel(iface, devices[..k]))
    {
      var d := devices[k];
      assert devices[..k + 1][..k] == devices[..k];
      ghost var sofar := before + TopLevel(iface, devices[..k]);
      if |d.children| == 0 {
        assert TopLevel(iface, devices[..k + 1]) == TopLevel(iface, devices[..k]);
        continue;
      }
      ghost var e := Entry(d.kind, iface, d.children);
      assert before + TopLevel(iface, devices[..k + 1]) == sofar + [e];
      FirstOfEachAppend(sofar, e);
      if HasKind(r, d.kind) {
        continue;
      }
      r := r + [Entry(d.kind, iface, d.children)];
    }
    assert devices[..|devices|] == devices;
  }

  // ---------------------------------------------------------------- the pool

  datatype Worker = Busy(index: nat) | Done

  /** `claims` lists the indices taken so far, `outcomes` how the queries that ended went. */
  datatype State = State(
    entries: seq<Entry>,
    nextIndex: nat,
    workers: seq<Worker>,
    cache: map<string, Fetched>,
    claims: seq<nat>,
    outcomes: map<nat, Option<string>>,
    queried: set<string>)

  /** A query of the pool ends, or a live query of another caller stores a type. */
  datatype Event = QueryEnds(w: nat, content: Option<string>) | LiveQuery(kind: string, fetched: Fetched)

  function Claim(s: State): (State, Worker) {
    if s.nextIndex < |s.entries|
    then (s.(nextIndex := s.nextIndex + 1, claims := s.claims + [s.nextIndex]), Busy(s.nextIndex))
    else (s, Done)
  }

  /** A worker is created and runs up to its first `await`. */
  function Spawned(s: State): State {
    var (s1, w) := Claim(s);
    s1.(workers := s1.workers + [w])
  }

  function SpawnAll(s: State, n: nat): State {
    if n == 0 then s else Spawned(SpawnAll(s, n - 1))
  }

  function PoolSize(entries: seq<Entry>): nat {
    if |entries| < WARM_CONCURRENCY then |entries| else WARM_CONCURRENCY
  }

  function Initial(entries: seq<Entry>, cache: map<string, Fetched>): State {
    SpawnAll(State(entries, 0, [], cache, [], map[], {}), PoolSize(entries))
  }

  predicate Enabled(s: State, e: Event) {
    match e
    case QueryEnds(w, _) => w < |s.workers| && s.workers[w].Busy? && s.workers[w].index < |s.entries|
    case LiveQuery(_, _) => true
  }

  function Stored(s: State, i: nat, content: Option<string>): State
    requires i < |s.entries|
  {
    var s1 := s.(outcomes := s.outcomes[i := content]);
    if content == None then s1
    else s1.(cache := s.cache[s.entries[i].kind := Fetched(s.entries[i].iface, content.value)])
  }

  function Step(s: State, e: Event): State
    requires Enabled(s, e)
  {
    match e
    case QueryEnds(w, content) =>
      var (s2, next) := Claim(Stored(s, s.workers[w].index, content));
      s2.(workers := s2.workers[w := next])
    case LiveQuery(kind, fetched) =>
      s.(cache := s.cache[kind := fetched], queried := s.queried + {kind})
  }

  /** `Promise.all` over the workers has resolved. */
  predicate Ended(s: State) {
    forall w :: 0 <= w < |s.workers| ==> s.workers[w].Done?
  }

  ghost predicate IsRun(entries: seq<Entry>, cache: map<string, Fetched>, ss: seq<State>, es: seq<Event>) {
    && |ss| == |es| + 1 && ss[0] == Initial(entries, cache)
    && forall i {:trigger es[i]} :: 0 <= i < |es| ==> Enabled(ss[i], es[i]) && ss[i + 1] == Step(ss[i], es[i])
  }

  class Pool {
    const entries: seq<Entry>
    var nextIndex: nat
    var workers: seq<Worker>
    var cache: map<string, Fetched>
    ghost var claims: seq<nat>
    ghost var outcomes: map<nat, Option<string>>
    ghost var queried: set<string>

    ghost function View(): State
      reads this
    {
      State(entries, nextIndex, workers, cache, claims, outcomes, queried)
    }

    constructor (entries: seq<Entry>, cache: map<string, Fetched>)
      ensures View() == Initial(entries, cache)
    {
      this.entries, this.cache := entries, cache;
      nextIndex, workers, claims, outcomes, queried := 0, [], [], map[], {};
      new;
      ghost var s0 := View();
      var size := PoolSize(entries);
      for k := 0 to size
        invariant View() == SpawnAll(s0, k)
      {
        var w := TakeNext();
        workers := workers + [w];
      }
    }

    /** The head of a worker's loop. */
    method TakeNext() returns (w: Worker)
      modifies this
      ensures (View(), w) == Claim(old(View()))
    {
      if nextIndex < |entries| {
        w := Busy(nextIndex);
        claims := claims + [nextIndex];
        nextIndex := nextIndex + 1;
      } else {
        w := Done;
      }
    }

    /** `processType` ends and its worker goes round; a failed query is only logged. */
    method ResumeWorker(w: nat, content: Option<string>)
      requires Enabled(View(), QueryEnds(w, content))
      modifies this
      ensures View() == Step(old(View()), QueryEnds(w, content))
    {
      var i := workers[w].index;
      outcomes := outcomes[i := content];
      if content.Some? {
        cache := cache[entries[i].kind := Fetched(entries[i].iface, content.value)];
      }
      var next := TakeNext();
      workers := workers[w := next];
    }
  }

  // ---------------------------------------------------------------- the invariant

  predicate InFlight(s: State, i: nat) {
    exists w :: 0 <= w < |s.workers| && s.workers[w] == Busy(i)
  }

  ghost predicate ClaimsInOrder(s: State) {
    && s.nextIndex <= |s.entries| && |s.claims| == s.nextIndex
    && forall k :: 0 <= k < |s.claims| ==> s.claims[k] == k
  }

  /** What is claimed is in flight with one worker, or has ended. */
  ghost predicate Accounted(s: State) {
    && (forall i: nat :: i in s.outcomes ==> i < s.nextIndex && !InFlight(s, i))
    && (forall w :: 0 <= w < |s.workers| && s.workers[w].Busy? ==> s.workers[w].index < s.nextIndex)
    && (forall v, w :: 0 <= v < w < |s.workers| && s.workers[v].Busy? ==> s.workers[v] != s.workers[w])
    && (forall i: nat :: i < s.nextIndex ==> i in s.outcomes || InFlight(s, i))
    && (forall w :: 0 <= w < |s.workers| && s.workers[w].Done? ==> s.nextIndex == |s.entries|)
  }

  ghost predicate ResultsCached(s: State) {
    forall i: nat :: i in s.outcomes && i < |s.entries| && s.outcomes[i].Some? ==>
      var e := s.entries[i];
      && e.kind in s.cache
      && (e.kind !in s.queried ==> s.cache[e.kind] == Fetched(e.iface, s.outcomes[i].value))
  }

  ghost predicate DistinctKinds(entries: seq<Entry>) {
    forall i, j :: 0 <= i < j < |entries| ==> entries[i].kind != entries[j].kind
  }

  ghost predicate Inv(s: State) {
    ClaimsInOrder(s) && Accounted(s) && ResultsCached(s)
  }

  /** All workers are busy, each with the index it was created for. */
  ghost predicate AllSpawned(s: State, n: nat) {
    && s.nextIndex == n && |s.workers| == n && n <= |s.entries| && s.outcomes == map[]
    && ClaimsInOrder(s) && forall w :: 0 <= w < n ==> s.workers[w] == Busy(w)
  }

  lemma SpawnedAll(s: State, n: nat)
    requires AllSpawned(s, n) && n < |s.entries|
    ensures AllSpawned(Spawned(s), n + 1) && Spawned(s).entries == s.entries
  {
  }

  lemma {:induction false} SpawnsAll(s: State, n: nat)
    requires AllSpawned(s, 0) && n <= |s.entries|
    ensures AllSpawned(SpawnAll(s, n), n) && SpawnAll(s, n).entries == s.entries
    decreases n
  {
    if n > 0 {
      SpawnsAll(s, n - 1);
      SpawnedAll(SpawnAll(s, n - 1), n - 1);
    }
  }

  lemma AllSpawnedInv(s: State, n: nat)
    requires AllSpawned(s, n)
    ensures Inv(s)
  {
    forall i: nat | i < n ensures InFlight(s, i) {
      assert s.workers[i] == Busy(i);
    }
  }

  lemma InitialInv(entries: seq<Entry>, cache: map<string, Fetched>)
    ensures Inv(Initial(entries, cache)) && Initial(entries, cache).entries == entries
    ensures |Initial(entries, cache).workers| == PoolSize(entries)
  {
    SpawnsAll(State(entries, 0, [], cache, [], map[], {}), PoolSize(entries));
    AllSpawnedInv(Initial(entries, cache), PoolSize(entries));
  }

  lemma QueryEndsAccounted(s: State, w: nat, content: Option<string>)
    requires ClaimsInOrder(s) && Accounted(s) && Enabled(s, QueryEnds(w, content))
    ensures ClaimsInOrder(Step(s, QueryEnds(w, content))) && Accounted(Step(s, QueryEnds(w, content)))
  {
    var i := s.workers[w].index;
    var s1 := Step(s, QueryEnds(w, content));
    assert InFlight(s, i);
    assert s1.outcomes == s.outcomes[i := content];
    assert forall v :: 0 <= v < |s.workers| && v != w ==> s1.workers[v] == s.workers[v];
    forall k: nat | k < s1.nextIndex ensures k in s1.outcomes || InFlight(s1, k) {
      if k == s.nextIndex {
        assert s1.workers[w] == Busy(k);
      } else if k !in s1.outcomes {
        assert InFlight(s, k);
        var v :| 0 <= v < |s.workers| && s.workers[v] == Busy(k);
        assert s1.workers[v] == Busy(k);
      }
    }
    forall k: nat | k in s1.outcomes ensures k < s1.nextIndex && !InFlight(s1, k) {
      assert forall v :: 0 <= v < |s1.workers| && v != w && s1.workers[v] == Busy(k) ==> s.workers[v] == Busy(k) && InFlight(s, k) && k != i;
    }
  }

  lemma QueryEndsCached(s: State, w: nat, content: Option<string>)
    requires Accounted(s) && ResultsCached(s) && DistinctKinds(s.entries) && Enabled(s, QueryEnds(w, content))
    ensures ResultsCached(Step(s, QueryEnds(w, content)))
  {
    var i := s.workers[w].index;
    assert InFlight(s, i) && i !in s.outcomes;
    assert forall k: nat :: k < |s.entries| && k != i ==> s.entries[k].kind != s.entries[i].kind;
  }

  lemma StepInv(s: State, e: Event)
    requires Inv(s) && DistinctKinds(s.entries) && Enabled(s, e)
    ensures Inv(Step(s, e))
  {
    if e.QueryEnds? {
      QueryEndsAccounted(s, e.w, e.content);
      QueryEndsCached(s, e.w, e.content);
    } else {
      assert forall i: nat :: InFlight(Step(s, e), i) <==> InFlight(s, i);
    }
  }

  lemma {:induction false} RunInv(entries: seq<Entry>, cache: map<string, Fetched>, ss: seq<State>, es: seq<Event>, i: nat)
    requires IsRun(entries, cache, ss, es) && DistinctKinds(entries) && i < |ss|
    ensures Inv(ss[i]) && ss[i].entries == entries && |ss[i].workers| == PoolSize(entries)
    decreases i
  {
    if i == 0 {
      InitialInv(entries, cache);
    } else {
      RunInv(entries, cache, ss, es, i - 1);
      assert ss[i] == Step(ss[i - 1], es[i - 1]);
      StepInv(ss[i - 1], es[i - 1]);
    }
  }

  function BusyCount(ws: seq<Worker>): (n: nat)
    ensures n <= |ws|
    ensures (forall w :: 0 <= w < |ws| ==> ws[w].Busy?) ==> n == |ws|
  {
    if ws == [] then 0 else BusyCount(ws[..|ws| - 1]) + (if ws[|ws| - 1].Busy? then 1 else 0)
  }

  // ---------------------------------------------------------------- the claims, over every run

  /** Every type is claimed once, in collection order; what was claimed is either ended or in flight with
      exactly one worker. */
  lemma ClaimedOnce(entries: seq<Entry>, cache: map<string, Fetched>, ss: seq<State>, es: seq<Event>, i: nat, k: nat)
    requires IsRun(entries, cache, ss, es) && DistinctKinds(entries) && i < |ss| && k < |entries|
    ensures multiset(ss[i].claims)[k] == (if k < ss[i].nextIndex then 1 else 0)
    ensures k < ss[i].nextIndex <==> k in ss[i].outcomes || InFlight(ss[i], k)
    ensures !(k in ss[i].outcomes && InFlight(ss[i], k))
    ensures forall v, w :: 0 <= v < w < |ss[i].workers| ==> !(ss[i].workers[v] == Busy(k) == ss[i].workers[w])
  {
    RunInv(entries, cache, ss, es, i);
    RangeCount(ss[i].claims, k);
  }

  lemma {:induction false} RangeCount(c: seq<nat>, k: nat)
    requires forall j :: 0 <= j < |c| ==> c[j] == j
    ensures multiset(c)[k] == (if k < |c| then 1 else 0)
    decreases |c|
  {
    if c != [] {
      var n := |c| - 1;
      RangeCount(c[..n], k);
      assert c == c[..n] + [n];
    }
  }

  /** At most min(3, n) queries are in flight, and exactly that many while types are left to claim. */
  lemma BoundedConcurrency(entries: seq<Entry>, cache: map<string, Fetched>, ss: seq<State>, es: seq<Event>, i: nat)
    requires IsRun(entries, cache, ss, es) && DistinctKinds(entries) && i < |ss|
    ensures BusyCount(ss[i].workers) <= |entries| && BusyCount(ss[i].workers) <= 3
    ensures ss[i].nextIndex < |entries| ==> BusyCount(ss[i].workers) == if |entries| < 3 then |entries| else 3
  {
    RunInv(entries, cache, ss, es, i);
  }

  /** A query that ends stores its type if it succeeded and leaves all other types alone; one that
      failed leaves what was cached before. */
  lemma QueryStoresItsType(
    entries: seq<Entry>, cache: map<string, Fetched>, ss: seq<State>, es: seq<Event>, i: nat, w: nat, content: Option<string>, kind: string)
    requires IsRun(entries, cache, ss, es) && DistinctKinds(entries) && i < |es| && es[i] == QueryEnds(w, content)
    ensures w < |ss[i].workers| && ss[i].workers[w].Busy? && ss[i].workers[w].index < |entries|
    ensures var e := entries[ss[i].workers[w].index];
      if content.Some? && kind == e.kind then kind in ss[i + 1].cache && ss[i + 1].cache[kind] == Fetched(e.iface, content.value)
      else (kind in ss[i + 1].cache <==> kind in ss[i].cache) &&
           (kind in ss[i].cache ==> ss[i + 1].cache[kind] == ss[i].cache[kind])
  {
    RunInv(entries, cache, ss, es, i);
    assert Enabled(ss[i], es[i]) && ss[i + 1] == Step(ss[i], es[i]);
  }

  /** When the pool ends every type has been attempted, and what could be fetched is in the cache,
      whatever happened to the others. */
  lemma AllAttempted(entries: seq<Entry>, cache: map<string, Fetched>, ss: seq<State>, es: seq<Event>, i: nat, k: nat)
    requires IsRun(entries, cache, ss, es) && DistinctKinds(entries) && i < |ss| && k < |entries| && Ended(ss[i])
    ensures k in ss[i].outcomes
    ensures ss[i].outcomes[k].Some? ==>
              && entries[k].kind in ss[i].cache
              && (entries[k].kind !in ss[i].queried ==>
                    ss[i].cache[entries[k].kind] == Fetched(entries[k].iface, ss[i].outcomes[k].value))
  {
    RunInv(entries, cache, ss, es, i);
    assert ss[i].workers[0].Done?;
    assert ss[i].nextIndex == |entries|;
    assert !InFlight(ss[i], k);
  }
}
