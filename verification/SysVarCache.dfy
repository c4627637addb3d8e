/**
 The short-lived name-to-type cache of system variables: the set, create and
 delete handlers of src/tools/control.ts over the holder of
 src/ccu/target-registry.ts, with one step per suspension point.

 The CCU evaluates a request at some moment after it was sent, and a request may
 take effect although its reply is lost, or arrives after the handler has ended.
 Nobody else edits the variables.
 */
module SysVarCache {
  import opened Wrappers

  type Name = string

  datatype VarInfo = VarInfo(kind: string, valueList: Option<string>)

  type Types = map<Name, VarInfo>

  const SYSVAR_TYPE_TTL_MS := 30_000

  datatype CacheEntry = CacheEntry(ts: int, types: Types)

  datatype Handler =
    | Fetching(name: Name, genBefore: nat, snapshot: Option<Types>)
    | SetDone(used: Option<VarInfo>)
    | Creating(name: Name)
    | CleaningUp(name: Name, actual: Name)
    | CreateDone(name: Name, cleaned: Option<Name>)
    | Deleting(name: Name)
    | DeleteDone(name: Name)

  /** `pending[h]` are the names that handler `h` has changed on the CCU since it last bumped `gen`. */
  datatype State = State(
    entry: Option<CacheEntry>,
    gen: nat,
    vars: Types,
    handlers: map<nat, Handler>,
    pending: map<nat, set<Name>>)

  datatype Event =
    | StartSet(h: nat, name: Name, now: int)
    | EvaluateGetAll(h: nat)
    | SetReply(h: nat, now: int)
    | SetFails(h: nat)
    | StartCreate(h: nat, name: Name)
    | ApplyCreate(h: nat, actual: Name, info: VarInfo)
    | CreateReply(h: nat, output: Option<Name>)
    | ApplyCleanup(h: nat)
    | CleanupReply(h: nat)
    | StartDelete(h: nat, name: Name)
    | ApplyDelete(h: nat)
    | DeleteReply(h: nat, ok: bool)

  // ---------------------------------------------------------------- the steps

  function SetHandler(s: State, h: nat, to: Handler): State {
    s.(handlers := s.handlers[h := to])
  }

  function Cached(s: State, name: Name, now: int): Option<VarInfo> {
    if s.entry.Some? && now - s.entry.value.ts < SYSVAR_TYPE_TTL_MS && name in s.entry.value.types
    then Some(s.entry.value.types[name]) else None
  }

  function Lookup(types: Types, name: Name): Option<VarInfo> {
    if name in types then Some(types[name]) else None
  }

  function Invalidated(s: State, h: nat): State {
    s.(entry := None, gen := s.gen + 1, pending := s.pending - {h})
  }

  /** The CCU changes what it knows of `name` on behalf of handler `h`. */
  function Changed(s: State, h: nat, name: Name, vars: Types): State {
    s.(vars := vars, pending := s.pending[h := (if h in s.pending then s.pending[h] else {}) + {name}])
  }

  function FinishFetch(s: State, h: nat, f: Handler, now: int): State
    requires f.Fetching? && f.snapshot.Some?
  {
    var s1 := if s.gen == f.genBefore then s.(entry := Some(CacheEntry(now, f.snapshot.value))) else s;
    SetHandler(s1, h, SetDone(Lookup(f.snapshot.value, f.name)))
  }

  predicate Enabled(s: State, e: Event) {
    match e
    case StartSet(h, _, _) => h !in s.handlers
    case EvaluateGetAll(h) => h in s.handlers && s.handlers[h].Fetching?
    case SetReply(h, _) => h in s.handlers && s.handlers[h].Fetching? && s.handlers[h].snapshot.Some?
    case SetFails(h) => h in s.handlers && s.handlers[h].Fetching?
    case StartCreate(h, _) => h !in s.handlers
    case ApplyCreate(h, actual, _) =>
      h in s.handlers && (s.handlers[h].Creating? || s.handlers[h].CleaningUp? || s.handlers[h].CreateDone?) && actual !in s.vars
    case CreateReply(h, _) => h in s.handlers && s.handlers[h].Creating?
    case ApplyCleanup(h) =>
      h in s.handlers && (s.handlers[h].CleaningUp? || (s.handlers[h].CreateDone? && s.handlers[h].cleaned.Some?))
    case CleanupReply(h) => h in s.handlers && s.handlers[h].CleaningUp?
    case StartDelete(h, _) => h !in s.handlers
    case ApplyDelete(h) => h in s.handlers && (s.handlers[h].Deleting? || s.handlers[h].DeleteDone?)
    case DeleteReply(h, _) => h in s.handlers && s.handlers[h].Deleting?
  }

  function Step(s: State, e: Event): State
    requires Enabled(s, e)
  {
    match e
    case StartSet(h, name, now) =>
      (match Cached(s, name, now)
       case Some(info) => SetHandler(s, h, SetDone(Some(info)))
       case None => SetHandler(s, h, Fetching(name, s.gen, None)))
    case EvaluateGetAll(h) => SetHandler(s, h, s.handlers[h].(snapshot := Some(s.vars)))
    case SetReply(h, now) => FinishFetch(s, h, s.handlers[h], now)
    case SetFails(h) => SetHandler(s, h, SetDone(None))
    case StartCreate(h, name) => SetHandler(s, h, Creating(name))
    case ApplyCreate(h, actual, info) => Changed(s, h, actual, s.vars[actual := info])
    case CreateReply(h, actual) =>
      var name := s.handlers[h].name;
      if actual == None || actual.value == "" then SetHandler(s, h, CreateDone(name, None))
      else if actual.value == name then SetHandler(Invalidated(s, h), h, CreateDone(name, None))
      else SetHandler(s, h, CleaningUp(name, actual.value))
    case ApplyCleanup(h) =>
      var actual := if s.handlers[h].CleaningUp? then s.handlers[h].actual else s.handlers[h].cleaned.value;
      Changed(s, h, actual, s.vars - {actual})
    case CleanupReply(h) =>
      SetHandler(Invalidated(s, h), h, CreateDone(s.handlers[h].name, Some(s.handlers[h].actual)))
    case StartDelete(h, name) => SetHandler(s, h, Deleting(name))
    case ApplyDelete(h) => Changed(s, h, s.handlers[h].name, s.vars - {s.handlers[h].name})
    case DeleteReply(h, ok) =>
      SetHandler(if ok then Invalidated(s, h) else s, h, DeleteDone(s.handlers[h].name))
  }

  predicate Initial(s: State) {
    s.entry == None && s.gen == 0 && s.handlers == map[] && s.pending == map[]
  }

  ghost predicate IsRun(ss: seq<State>, es: seq<Event>) {
    && |ss| == |es| + 1 && Initial(ss[0])
    && forall i {:trigger es[i]} :: 0 <= i < |es| ==> Enabled(ss[i], es[i]) && ss[i + 1] == Step(ss[i], es[i])
  }

  // ---------------------------------------------------------------- the class

  /** The holder and its handlers; `vars`, `handlers` and `pending` belong to the world around them. */
  class SysVarTools {
    var entry: Option<CacheEntry>
    var gen: nat
    var vars: Types
    var handlers: map<nat, Handler>
    var pending: map<nat, set<Name>>

    function View(): State
      reads this
    {
      State(entry, gen, vars, handlers, pending)
    }

    constructor (vars: Types)
      ensures Initial(View()) && this.vars == vars
    {
      entry, gen := None, 0;
      this.vars, handlers, pending := vars, map[], map[];
    }

    method Invalidate(h: nat)
      modifies this`entry, this`gen, this`pending
      ensures View() == Invalidated(old(View()), h)
    {
      entry := None;
      gen := gen + 1;
      pending := pending - {h};
    }

    /** `set_system_variable` up to its first suspension. */
    method BeginSet(h: nat, name: Name, now: int)
      requires h !in handlers
      modifies this`handlers
      ensures View() == Step(old(View()), StartSet(h, name, now))
    {
      var sysVar: Option<VarInfo> := None;
      if entry.Some? && now - entry.value.ts < SYSVAR_TYPE_TTL_MS {
        sysVar := Lookup(entry.value.types, name);
      }
      if sysVar == None {
        var genBefore := gen;
        handlers := handlers[h := Fetching(name, genBefore, None)];
      } else {
        handlers := handlers[h := SetDone(sysVar)];
      }
    }

    /** The list arrived: cache it unless the holder was invalidated meanwhile. */
    method FinishSet(h: nat, now: int)
      requires h in handlers && handlers[h].Fetching? && handlers[h].snapshot.Some?
      modifies this`handlers, this`entry
      ensures View() == Step(old(View()), SetReply(h, now))
    {
      var types := handlers[h].snapshot.value;
      if gen == handlers[h].genBefore {
        entry := Some(CacheEntry(now, types));
      }
      handlers := handlers[h := SetDone(Lookup(types, handlers[h].name))];
    }

    /** The create script answered with the name it stored, or with nothing. */
    method FinishCreate(h: nat, actual: Option<Name>)
      requires h in handlers && handlers[h].Creating?
      modifies this`handlers, this`entry, this`gen, this`pending
      ensures View() == Step(old(View()), CreateReply(h, actual))
    {
      var name := handlers[h].name;
      if actual == None || actual.value == "" {
        handlers := handlers[h := CreateDone(name, None)];
        return;
      }
      if actual.value != name {
        handlers := handlers[h := CleaningUp(name, actual.value)];
        return;
      }
      Invalidate(h);
      handlers := handlers[h := CreateDone(name, None)];
    }

    method FinishCleanup(h: nat)
      requires h in handlers && handlers[h].CleaningUp?
      modifies this`handlers, this`entry, this`gen, this`pending
      ensures View() == Step(old(View()), CleanupReply(h))
    {
      Invalidate(h);
      handlers := handlers[h := CreateDone(handlers[h].name, Some(handlers[h].actual))];
    }

    method FinishDelete(h: nat, ok: bool)
      requires h in handlers && handlers[h].Deleting?
      modifies this`handlers, this`entry, this`gen, this`pending
      ensures View() == Step(old(View()), DeleteReply(h, ok))
    {
      if ok {
        Invalidate(h);
      }
      handlers := handlers[h := DeleteDone(handlers[h].name)];
    }
  }

  // ---------------------------------------------------------------- the invariant

  ghost predicate Pending(s: State, name: Name) {
    exists h :: h in s.pending && name in s.pending[h]
  }

  /** `types` is the CCU's own list, except for names under a pending change. */
  ghost predicate Agrees(s: State, types: Types) {
    forall n: Name :: !Pending(s, n) ==> Lookup(types, n) == Lookup(s.vars, n)
  }

  ghost predicate SnapshotSound(s: State, f: Handler) {
    f.Fetching? ==>
      f.genBefore <= s.gen && (f.genBefore == s.gen && f.snapshot.Some? ==> Agrees(s, f.snapshot.value))
  }

  ghost predicate Inv(s: State) {
    && (s.entry.Some? ==> Agrees(s, s.entry.value.types))
    && (forall h :: h in s.handlers ==> SnapshotSound(s, s.handlers[h]))
  }

  lemma SetHandlerInv(s: State, h: nat, to: Handler)
    requires Inv(s) && SnapshotSound(s, to)
    ensures Inv(SetHandler(s, h, to))
  {
    var t := SetHandler(s, h, to);
    assert forall n :: Pending(t, n) <==> Pending(s, n);
    forall k | k in t.handlers ensures SnapshotSound(t, t.handlers[k]) {
      assert t.handlers[k] == if k == h then to else s.handlers[k];
      assert SnapshotSound(s, t.handlers[k]);
    }
  }

  lemma ChangedAgrees(s: State, h: nat, name: Name, vars: Types, types: Types)
    requires Agrees(s, types)
    requires forall n :: n != name ==> Lookup(vars, n) == Lookup(s.vars, n)
    ensures Agrees(Changed(s, h, name, vars), types)
  {
    var t := Changed(s, h, name, vars);
    assert h in t.pending && name in t.pending[h];
    assert forall k :: k in s.pending ==> k in t.pending && s.pending[k] <= t.pending[k];
    assert forall n :: Pending(s, n) ==> Pending(t, n);
    assert Pending(t, name);
  }

  lemma ChangedInv(s: State, h: nat, name: Name, vars: Types)
    requires Inv(s)
    requires forall n :: n != name ==> Lookup(vars, n) == Lookup(s.vars, n)
    ensures Inv(Changed(s, h, name, vars))
  {
    if s.entry.Some? { ChangedAgrees(s, h, name, vars, s.entry.value.types); }
    forall k | k in s.handlers ensures SnapshotSound(Changed(s, h, name, vars), s.handlers[k]) {
      var f := s.handlers[k];
      assert SnapshotSound(s, f);
      if f.Fetching? && f.genBefore == s.gen && f.snapshot.Some? {
        ChangedAgrees(s, h, name, vars, f.snapshot.value);
      }
    }
  }

  lemma InvalidatedInv(s: State, h: nat)
    requires Inv(s)
    ensures Inv(Invalidated(s, h))
  {
    forall k | k in s.handlers ensures SnapshotSound(Invalidated(s, h), s.handlers[k]) {
      assert SnapshotSound(s, s.handlers[k]);
    }
  }

  lemma FinishFetchInv(s: State, h: nat, now: int)
    requires Inv(s) && Enabled(s, SetReply(h, now))
    ensures Inv(Step(s, SetReply(h, now)))
  {
    var f := s.handlers[h];
    assert SnapshotSound(s, f);
    var s1 := if s.gen == f.genBefore then s.(entry := Some(CacheEntry(now, f.snapshot.value))) else s;
    assert forall n :: Pending(s1, n) <==> Pending(s, n);
    forall k | k in s1.handlers ensures SnapshotSound(s1, s1.handlers[k]) {
      assert SnapshotSound(s, s.handlers[k]);
    }
    SetHandlerInv(s1, h, SetDone(Lookup(f.snapshot.value, f.name)));
  }

  lemma StepInv(s: State, e: Event)
    requires Inv(s) && Enabled(s, e)
    ensures Inv(Step(s, e))
  {
    match e {
      case SetReply(h, now) => FinishFetchInv(s, h, now);
      case ApplyCreate(h, actual, info) => ChangedInv(s, h, actual, s.vars[actual := info]);
      case ApplyCleanup(h) =>
        var actual := if s.handlers[h].CleaningUp? then s.handlers[h].actual else s.handlers[h].cleaned.value;
        ChangedInv(s, h, actual, s.vars - {actual});
      case ApplyDelete(h) => ChangedInv(s, h, s.handlers[h].name, s.vars - {s.handlers[h].name});
      case CreateReply(h, _) =>
        InvalidatedInv(s, h);
        SetHandlerInv(s, h, Step(s, e).handlers[h]);
        SetHandlerInv(Invalidated(s, h), h, Step(s, e).handlers[h]);
      case CleanupReply(h) =>
        InvalidatedInv(s, h);
        SetHandlerInv(Invalidated(s, h), h, Step(s, e).handlers[h]);
      case DeleteReply(h, _) =>
        InvalidatedInv(s, h);
        SetHandlerInv(s, h, Step(s, e).handlers[h]);
        SetHandlerInv(Invalidated(s, h), h, Step(s, e).handlers[h]);
      case EvaluateGetAll(h) =>
        assert SnapshotSound(s, s.handlers[h]);
        SetHandlerInv(s, h, Step(s, e).handlers[h]);
      case _ => SetHandlerInv(s, e.h, Step(s, e).handlers[e.h]);
    }
  }

  lemma {:induction false} RunInv(ss: seq<State>, es: seq<Event>, i: nat)
    requires IsRun(ss, es) && i < |ss|
    ensures Inv(ss[i])
    decreases i
  {
    if i > 0 {
      RunInv(ss, es, i - 1);
      assert ss[i] == Step(ss[i - 1], es[i - 1]);
      StepInv(ss[i - 1], es[i - 1]);
    }
  }

  // ---------------------------------------------------------------- the claims, over every run

  /** A cached list is the CCU's own list, name by name, except where a handler has changed the CCU and
      not yet invalidated the cache; with no change pending it is the CCU's list. */
  lemma CacheAgreesWithCcu(ss: seq<State>, es: seq<Event>, i: nat)
    requires IsRun(ss, es) && i < |ss| && ss[i].entry.Some?
    ensures forall n: Name :: !Pending(ss[i], n) ==> Lookup(ss[i].entry.value.types, n) == Lookup(ss[i].vars, n)
    ensures ss[i].pending == map[] ==> ss[i].entry.value.types == ss[i].vars
  {
    RunInv(ss, es, i);
    if ss[i].pending == map[] {
      var a, b := ss[i].entry.value.types, ss[i].vars;
      forall n: Name ensures n in a <==> n in b {
        assert Lookup(a, n) == Lookup(b, n);
      }
      forall n | n in a ensures a[n] == b[n] {
        assert Lookup(a, n) == Lookup(b, n);
      }
    }
  }

  /** A set that is served from the cache uses the type the CCU has for the variable right then. */
  lemma CachedTypeIsCurrent(ss: seq<State>, es: seq<Event>, i: nat, name: Name, now: int)
    requires IsRun(ss, es) && i < |ss| && Cached(ss[i], name, now).Some? && !Pending(ss[i], name)
    ensures name in ss[i].vars && Cached(ss[i], name, now) == Some(ss[i].vars[name])
  {
    RunInv(ss, es, i);
    assert Lookup(ss[i].entry.value.types, name) == Lookup(ss[i].vars, name);
  }

  predicate Invalidates(s: State, e: Event)
    requires Enabled(s, e)
  {
    Step(s, e).gen != s.gen
  }

  lemma {:induction false} GenGrows(ss: seq<State>, es: seq<Event>, i: nat, j: nat)
    requires IsRun(ss, es) && i <= j < |ss|
    ensures ss[i].gen <= ss[j].gen
    ensures forall m {:trigger es[m]} :: i <= m < j && Invalidates(ss[m], es[m]) ==> ss[i].gen < ss[j].gen
    decreases j
  {
    if i < j {
      GenGrows(ss, es, i, j - 1);
      assert ss[j] == Step(ss[j - 1], es[j - 1]);
    }
  }

  lemma {:induction false} FetchRemembersGen(ss: seq<State>, es: seq<Event>, i: nat, j: nat, h: nat)
    requires IsRun(ss, es) && i < j < |ss| && es[i].StartSet? && es[i].h == h
    requires h in ss[j].handlers && ss[j].handlers[h].Fetching?
    ensures ss[j].handlers[h].genBefore == ss[i].gen
    decreases j
  {
    assert Enabled(ss[j - 1], es[j - 1]) && ss[j] == Step(ss[j - 1], es[j - 1]);
    if j > i + 1 {
      HandlerStays(ss, es, i + 1, j - 1, h);
      FetchRemembersGen(ss, es, i, j - 1, h);
    }
  }

  lemma {:induction false} HandlerStays(ss: seq<State>, es: seq<Event>, i: nat, j: nat, h: nat)
    requires IsRun(ss, es) && i <= j < |ss| && h in ss[i].handlers
    ensures h in ss[j].handlers
    decreases j
  {
    if i < j {
      HandlerStays(ss, es, i, j - 1, h);
      assert ss[j] == Step(ss[j - 1], es[j - 1]);
    }
  }

  /** A list whose fetch began before an invalidation is never installed after it. */
  lemma NoStaleInstall(ss: seq<State>, es: seq<Event>, i: nat, m: nat, j: nat, h: nat)
    requires IsRun(ss, es) && i <= m < j < |es|
    requires es[i].StartSet? && es[i].h == h && es[j].SetReply? && es[j].h == h
    requires Invalidates(ss[m], es[m])
    ensures ss[j + 1].entry == ss[j].entry
  {
    assert Enabled(ss[j], es[j]) && ss[j + 1] == Step(ss[j], es[j]);
    FetchRemembersGen(ss, es, i, j, h);
    GenGrows(ss, es, i, j);
  }

  // ---------------------------------------------------------------- how old a cached list can be

  /** Handler `g` asked for the list at step `i`, and the CCU evaluated it as `types` at step `e`. */
  ghost predicate FetchedAt(ss: seq<State>, es: seq<Event>, g: nat, i: int, e: int, types: Types)
    requires |ss| == |es| + 1
  {
    && 0 <= i < e < |es|
    && es[i].StartSet? && es[i].h == g && es[e] == EvaluateGetAll(g) && ss[e].vars == types
  }

  lemma {:induction false} FetchWasAsked(ss: seq<State>, es: seq<Event>, j: nat, g: nat) returns (i: int)
    requires IsRun(ss, es) && j < |ss| && g in ss[j].handlers && ss[j].handlers[g].Fetching?
    ensures 0 <= i < j && es[i].StartSet? && es[i].h == g && es[i].name == ss[j].handlers[g].name
    decreases j
  {
    assert Enabled(ss[j - 1], es[j - 1]) && ss[j] == Step(ss[j - 1], es[j - 1]);
    if g in ss[j - 1].handlers && ss[j - 1].handlers[g].Fetching? {
      i := FetchWasAsked(ss, es, j - 1, g);
    } else {
      i := j - 1;
    }
  }

  /** What a step does to the list a handler was sent. */
  lemma SnapshotStep(s: State, e: Event, g: nat)
    requires Enabled(s, e) && g in Step(s, e).handlers && Step(s, e).handlers[g].Fetching? && Step(s, e).handlers[g].snapshot.Some?
    ensures g in s.handlers && s.handlers[g].Fetching?
    ensures || (e == EvaluateGetAll(g) && Step(s, e).handlers[g].snapshot.value == s.vars)
            || s.handlers[g] == Step(s, e).handlers[g]
  {
  }

  lemma {:induction false} SnapshotWasEvaluated(ss: seq<State>, es: seq<Event>, j: nat, g: nat) returns (i: int, e: int)
    requires IsRun(ss, es) && j < |ss| && g in ss[j].handlers && ss[j].handlers[g].Fetching?
    requires ss[j].handlers[g].snapshot.Some?
    ensures e < j && FetchedAt(ss, es, g, i, e, ss[j].handlers[g].snapshot.value)
    decreases j
  {
    assert Enabled(ss[j - 1], es[j - 1]) && ss[j] == Step(ss[j - 1], es[j - 1]);
    SnapshotStep(ss[j - 1], es[j - 1], g);
    if es[j - 1] == EvaluateGetAll(g) && ss[j].handlers[g].snapshot.value == ss[j - 1].vars {
      i := FetchWasAsked(ss, es, j - 1, g);
      e := j - 1;
    } else {
      i, e := SnapshotWasEvaluated(ss, es, j - 1, g);
    }
  }

  /** A cached entry changes only by the reply that installs it. */
  lemma EntryStep(s: State, e: Event)
    requires Enabled(s, e) && Step(s, e).entry.Some?
    ensures || Step(s, e).entry == s.entry
            || (e.SetReply? && Step(s, e).entry == Some(CacheEntry(e.now, s.handlers[e.h].snapshot.value)))
  {
  }

  /** The entry came with the reply at step `k`, to a fetch of handler `g` asked at `i` and evaluated at `e`. */
  ghost predicate CameFrom(ss: seq<State>, es: seq<Event>, entry: CacheEntry, g: nat, i: int, e: int, k: int)
    requires |ss| == |es| + 1
  {
    FetchedAt(ss, es, g, i, e, entry.types) && e < k < |es| && es[k] == SetReply(g, entry.ts)
  }

  lemma {:induction false} EntryCameFrom(ss: seq<State>, es: seq<Event>, j: nat) returns (g: nat, i: int, e: int, k: int)
    requires IsRun(ss, es) && j < |ss| && ss[j].entry.Some?
    ensures k < j && CameFrom(ss, es, ss[j].entry.value, g, i, e, k)
    decreases j
  {
    assert Enabled(ss[j - 1], es[j - 1]) && ss[j] == Step(ss[j - 1], es[j - 1]);
    EntryStep(ss[j - 1], es[j - 1]);
    if ss[j].entry == ss[j - 1].entry {
      g, i, e, k := EntryCameFrom(ss, es, j - 1);
    } else {
      g, k := es[j - 1].h, j - 1;
      i, e := SnapshotWasEvaluated(ss, es, j - 1, g);
    }
  }

  /** Whatever is still pending, a type served from the cache comes from a list that was the CCU's own at a
      moment `e` in the run, asked for at most the ttl plus the duration of that fetch before. */
  lemma ServedListIsRecent(ss: seq<State>, es: seq<Event>, j: nat, name: Name, now: int)
    returns (g: nat, i: int, e: int, k: int)
    requires IsRun(ss, es) && j < |ss| && Cached(ss[j], name, now).Some?
    ensures k < j && CameFrom(ss, es, ss[j].entry.value, g, i, e, k)
    ensures name in ss[e].vars && Cached(ss[j], name, now) == Some(ss[e].vars[name])
    ensures now - es[i].now < SYSVAR_TYPE_TTL_MS + (es[k].now - es[i].now)
  {
    g, i, e, k := EntryCameFrom(ss, es, j);
  }
}
