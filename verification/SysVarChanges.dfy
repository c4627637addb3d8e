/**
 What the sysvar tools of src/tools/control.ts do to the type cache when a change of the CCU's
 variables is confirmed, what a set reads from it, and that a deleted variable never comes back.
 */
module SysVarChanges {
  import opened Wrappers
  import opened SysVarCache

  // ---------------------------------------------------------------- confirmed changes

  /** Handler `h` learns that its change took place: the delete was answered "true", the create echoed the
      requested name, or the attempt to remove a variable of another name has ended. */
  predicate ConfirmedBy(s: State, e: Event, h: nat)
    requires Enabled(s, e)
  {
    || e == DeleteReply(h, true) || e == CleanupReply(h)
    || (e.CreateReply? && e.h == h && e.output == Some(s.handlers[h].name) && s.handlers[h].name != "")
  }

  predicate Confirms(s: State, e: Event)
    requires Enabled(s, e)
  {
    ConfirmedBy(s, e, e.h)
  }

  /** In every run a confirmed change, and nothing else, drops the cached list, outdates every fetch on
      its way and ends what its handler had pending. */
  lemma ConfirmedChangeInvalidates(ss: seq<State>, es: seq<Event>, i: nat)
    requires IsRun(ss, es) && i < |es|
    ensures Enabled(ss[i], es[i])
    ensures Confirms(ss[i], es[i]) ==> (
      ss[i + 1].entry == None && ss[i + 1].gen == ss[i].gen + 1 && es[i].h !in ss[i + 1].pending)
    ensures !Confirms(ss[i], es[i]) ==> (
      ss[i + 1].gen == ss[i].gen && (es[i].SetReply? || ss[i + 1].entry == ss[i].entry))
  {
    assert Enabled(ss[i], es[i]) && ss[i + 1] == Step(ss[i], es[i]);
  }

  /** A create ends unconfirmed only without output; a variable that got another name is removed first. */
  lemma AnotherNameIsRemoved(ss: seq<State>, es: seq<Event>, i: nat, h: nat, output: Option<Name>)
    requires IsRun(ss, es) && i < |es| && es[i] == CreateReply(h, output)
    ensures h in ss[i].handlers && ss[i].handlers[h].Creating? && h in ss[i + 1].handlers
    ensures ss[i + 1].handlers[h].CleaningUp? <==> output.Some? && output.value != "" && output.value != ss[i].handlers[h].name
    ensures ss[i + 1].handlers[h].CleaningUp? ==> ss[i + 1].handlers[h] == CleaningUp(ss[i].handlers[h].name, output.value)
  {
    assert Enabled(ss[i], es[i]) && ss[i + 1] == Step(ss[i], es[i]);
  }

  // ---------------------------------------------------------------- pending changes

  predicate IsPending(s: State, h: nat, n: Name) {
    h in s.pending && n in s.pending[h]
  }

  /** The CCU changes variable `n` on behalf of handler `h`. */
  predicate Applies(s: State, e: Event, h: nat, n: Name)
    requires Enabled(s, e)
  {
    || (e.ApplyCreate? && e.h == h && e.actual == n)
    || (e == ApplyDelete(h) && s.handlers[h].name == n)
    || (e == ApplyCleanup(h) &&
        n == (if s.handlers[h].CleaningUp? then s.handlers[h].actual else s.handlers[h].cleaned.value))
  }

  lemma PendingStep(s: State, e: Event, h: nat, n: Name)
    requires Enabled(s, e)
    ensures IsPending(Step(s, e), h, n) <==> Applies(s, e, h, n) || (IsPending(s, h, n) && !ConfirmedBy(s, e, h))
    ensures !Applies(s, e, e.h, n) ==> Lookup(Step(s, e).vars, n) == Lookup(s.vars, n)
  {
  }

  ghost predicate AppliedAt(ss: seq<State>, es: seq<Event>, k: int, h: nat, n: Name) {
    0 <= k < |es| && k < |ss| && Enabled(ss[k], es[k]) && Applies(ss[k], es[k], h, n)
  }

  ghost predicate ConfirmedAt(ss: seq<State>, es: seq<Event>, m: int, h: nat) {
    0 <= m < |es| && m < |ss| && Enabled(ss[m], es[m]) && ConfirmedBy(ss[m], es[m], h)
  }

  /** Handler `h` changed `n` at step `k` and has had no confirmation since, up to `j`. */
  ghost predicate Unconfirmed(ss: seq<State>, es: seq<Event>, k: int, j: nat, h: nat, n: Name) {
    k < j && AppliedAt(ss, es, k, h, n) && forall m :: k < m < j ==> !ConfirmedAt(ss, es, m, h)
  }

  /** In every run a name is pending for a handler exactly if the handler changed it and has had no
      confirmation since: only such names are exempt from agreeing with the CCU. */
  lemma {:induction false} PendingExactly(ss: seq<State>, es: seq<Event>, j: nat, h: nat, n: Name)
    requires IsRun(ss, es) && j < |ss|
    ensures IsPending(ss[j], h, n) <==> exists k :: Unconfirmed(ss, es, k, j, h, n)
    decreases j
  {
    if j > 0 {
      PendingExactly(ss, es, j - 1, h, n);
      assert Enabled(ss[j - 1], es[j - 1]) && ss[j] == Step(ss[j - 1], es[j - 1]);
      PendingStep(ss[j - 1], es[j - 1], h, n);
      UnconfirmedNext(ss, es, j - 1, j, h, n);
    }
  }

  lemma UnconfirmedNext(ss: seq<State>, es: seq<Event>, i: nat, j: nat, h: nat, n: Name)
    requires j == i + 1
    ensures (exists k :: Unconfirmed(ss, es, k, j, h, n)) <==>
      AppliedAt(ss, es, i, h, n) || (!ConfirmedAt(ss, es, i, h) && exists k :: Unconfirmed(ss, es, k, i, h, n))
  {
    if AppliedAt(ss, es, i, h, n) {
      assert Unconfirmed(ss, es, i, j, h, n);
    } else if k :| Unconfirmed(ss, es, k, i, h, n) && !ConfirmedAt(ss, es, i, h) {
      assert Unconfirmed(ss, es, k, j, h, n);
    } else if k :| Unconfirmed(ss, es, k, j, h, n) {
      assert Unconfirmed(ss, es, k, i, h, n);
    }
  }

  // ---------------------------------------------------------------- a deleted variable stays gone

  /** No list that can still be served names `n`: not the cached one, nor one fetched since generation `gen`. */
  ghost predicate Gone(s: State, n: Name, gen: nat) {
    && n !in s.vars && s.gen >= gen
    && (s.entry.Some? ==> n !in s.entry.value.types)
    && (forall h :: h in s.handlers ==> FetchedWithout(s.handlers[h], n, gen))
  }

  predicate FetchedWithout(f: Handler, n: Name, gen: nat) {
    f.Fetching? && f.genBefore >= gen && f.snapshot.Some? ==> n !in f.snapshot.value
  }

  predicate Creates(e: Event, n: Name) {
    e.ApplyCreate? && e.actual == n
  }

  lemma HandlerGone(s: State, h: nat, to: Handler, n: Name, gen: nat)
    requires Gone(s, n, gen) && FetchedWithout(to, n, gen)
    ensures Gone(SetHandler(s, h, to), n, gen)
  {
    var t := SetHandler(s, h, to);
    forall k | k in t.handlers ensures FetchedWithout(t.handlers[k], n, gen) {
      assert t.handlers[k] == if k == h then to else s.handlers[k];
    }
  }

  lemma FetchGone(s: State, h: nat, now: int, n: Name, gen: nat)
    requires Gone(s, n, gen) && Enabled(s, SetReply(h, now))
    ensures Gone(Step(s, SetReply(h, now)), n, gen)
  {
    var f := s.handlers[h];
    assert FetchedWithout(f, n, gen);
    var s1 := if s.gen == f.genBefore then s.(entry := Some(CacheEntry(now, f.snapshot.value))) else s;
    HandlerGone(s1, h, SetDone(Lookup(f.snapshot.value, f.name)), n, gen);
  }

  lemma ChangeGone(s: State, e: Event, n: Name, gen: nat)
    requires Gone(s, n, gen) && Enabled(s, e) && !Creates(e, n) && (e.ApplyCreate? || e.ApplyCleanup? || e.ApplyDelete?)
    ensures Gone(Step(s, e), n, gen)
  {
  }

  lemma GoneStep(s: State, e: Event, n: Name, gen: nat)
    requires Gone(s, n, gen) && Enabled(s, e) && !Creates(e, n)
    ensures Gone(Step(s, e), n, gen)
  {
    if e.SetReply? {
      FetchGone(s, e.h, e.now, n, gen);
    } else if e.ApplyCreate? || e.ApplyCleanup? || e.ApplyDelete? {
      ChangeGone(s, e, n, gen);
    } else if Confirms(s, e) {
      HandlerGone(Invalidated(s, e.h), e.h, Step(s, e).handlers[e.h], n, gen);
    } else {
      HandlerGone(s, e.h, Step(s, e).handlers[e.h], n, gen);
    }
  }

  /** The CCU lost `n` when handler `h` deleted it, and nobody has created it since. */
  lemma {:induction false} DeletedFromCcu(ss: seq<State>, es: seq<Event>, a: nat, j: nat, h: nat, n: Name)
    requires IsRun(ss, es) && a < j < |ss| && Deletes(ss, es, a, h, n)
    requires forall m {:trigger es[m]} :: a <= m < j ==> !Creates(es[m], n)
    ensures n !in ss[j].vars
    decreases j
  {
    assert Enabled(ss[j - 1], es[j - 1]) && ss[j] == Step(ss[j - 1], es[j - 1]);
    if a + 1 < j {
      DeletedFromCcu(ss, es, a, j - 1, h, n);
    }
  }

  ghost predicate Deletes(ss: seq<State>, es: seq<Event>, a: nat, h: nat, n: Name)
    requires |ss| == |es| + 1
  {
    a < |es| && es[a] == ApplyDelete(h) && h in ss[a].handlers && ss[a].handlers[h] == Deleting(n)
  }

  lemma ConfirmedGone(s: State, h: nat, n: Name)
    requires Inv(s) && Enabled(s, DeleteReply(h, true)) && n !in s.vars
    ensures Gone(Step(s, DeleteReply(h, true)), n, s.gen + 1)
  {
    forall k | k in s.handlers ensures FetchedWithout(s.handlers[k], n, s.gen + 1) {
      assert SnapshotSound(s, s.handlers[k]);
    }
  }

  /** Once the delete of `n` is confirmed no set is served its old type any more, in every later state,
      unless somebody creates it again. */
  lemma {:induction false} DeletedStaysGone(
    ss: seq<State>, es: seq<Event>, a: nat, i: nat, j: nat, h: nat, n: Name, now: int)
    requires IsRun(ss, es) && a < i < j < |ss| && Deletes(ss, es, a, h, n) && es[i] == DeleteReply(h, true)
    requires forall m {:trigger es[m]} :: a <= m < j ==> !Creates(es[m], n)
    ensures Gone(ss[j], n, ss[i].gen + 1)
    ensures Cached(ss[j], n, now) == None
    decreases j
  {
    assert Enabled(ss[j - 1], es[j - 1]) && ss[j] == Step(ss[j - 1], es[j - 1]);
    if j == i + 1 {
      RunInv(ss, es, i);
      DeletedFromCcu(ss, es, a, i, h, n);
      ConfirmedGone(ss[i], h, n);
    } else {
      DeletedStaysGone(ss, es, a, i, j - 1, h, n, now);
      GoneStep(ss[j - 1], es[j - 1], n, ss[i].gen + 1);
    }
  }

  // ---------------------------------------------------------------- what a set uses

  /** The CCU answers a fetch with the variables it has then; a fetch that fails gives the set nothing and
      leaves the cached list. */
  lemma FetchAnswered(ss: seq<State>, es: seq<Event>, i: nat, h: nat)
    requires IsRun(ss, es) && i < |es| && h in ss[i].handlers
    ensures es[i] == EvaluateGetAll(h) ==> (
      && ss[i].handlers[h].Fetching? && h in ss[i + 1].handlers
      && ss[i + 1].handlers[h] == Fetching(ss[i].handlers[h].name, ss[i].handlers[h].genBefore, Some(ss[i].vars)))
    ensures es[i] == SetFails(h) ==> (
      h in ss[i + 1].handlers && ss[i + 1].handlers[h] == SetDone(None) && ss[i + 1].entry == ss[i].entry)
  {
    assert Enabled(ss[i], es[i]) && ss[i + 1] == Step(ss[i], es[i]);
  }

  /** A set that had to fetch the list uses the type that the CCU had for its variable when it evaluated
      the request, and the list becomes the cached one exactly if nothing was invalidated meanwhile. */
  lemma FetchedTypeIsUsed(ss: seq<State>, es: seq<Event>, j: nat, h: nat, now: int) returns (i: int, e: int)
    requires IsRun(ss, es) && j < |es| && es[j] == SetReply(h, now)
    ensures 0 <= i < e < j && es[i].StartSet? && es[i].h == h && es[e] == EvaluateGetAll(h)
    ensures h in ss[j + 1].handlers && ss[j + 1].handlers[h] == SetDone(Lookup(ss[e].vars, es[i].name))
    ensures ss[j + 1].entry == if ss[j].gen == ss[i].gen then Some(CacheEntry(now, ss[e].vars)) else ss[j].entry
  {
    assert Enabled(ss[j], es[j]) && ss[j + 1] == Step(ss[j], es[j]);
    i := FetchWasAsked(ss, es, j, h);
    var i1: int;
    i1, e := SnapshotWasEvaluated(ss, es, j, h);
    StartedOnce(ss, es, i, i1, h);
    FetchRemembersGen(ss, es, i, j, h);
  }

  lemma StartedOnce(ss: seq<State>, es: seq<Event>, i: nat, k: nat, h: nat)
    requires IsRun(ss, es) && i < |es| && k < |es|
    requires es[i].StartSet? && es[i].h == h && es[k].StartSet? && es[k].h == h
    ensures i == k
  {
    assert Enabled(ss[i], es[i]) && ss[i + 1] == Step(ss[i], es[i]);
    assert Enabled(ss[k], es[k]) && ss[k + 1] == Step(ss[k], es[k]);
    if i < k {
      HandlerStays(ss, es, i + 1, k, h);
    } else if k < i {
      HandlerStays(ss, es, k + 1, i, h);
    }
  }

  /** The cached list stays as it is until a confirmed change or another reply. */
  lemma {:induction false} EntryStays(ss: seq<State>, es: seq<Event>, j: nat, k: nat)
    requires IsRun(ss, es) && j <= k < |ss|
    requires forall m {:trigger es[m]} :: j <= m < k ==> Enabled(ss[m], es[m]) && !es[m].SetReply? && !Confirms(ss[m], es[m])
    ensures ss[k].entry == ss[j].entry
    decreases k
  {
    if j < k {
      EntryStays(ss, es, j, k - 1);
      ConfirmedChangeInvalidates(ss, es, k - 1);
      assert !es[k - 1].SetReply?;
    }
  }

  /** Within the ttl of an installed list, with no change confirmed and no other list installed since, a set
      of a variable on that list is served its type without asking the CCU; any other set asks. */
  lemma FreshListIsServed(
    ss: seq<State>, es: seq<Event>, j: nat, k: nat, h: nat, name: Name, now: int, installed: CacheEntry)
    requires IsRun(ss, es) && j <= k < |es| && ss[j].entry == Some(installed) && es[k] == StartSet(h, name, now)
    requires forall m {:trigger es[m]} :: j <= m < k ==> Enabled(ss[m], es[m]) && !es[m].SetReply? && !Confirms(ss[m], es[m])
    ensures h in ss[k + 1].handlers
    ensures ss[k + 1].handlers[h] ==
      if name in installed.types && now < installed.ts + 30_000 then SetDone(Some(installed.types[name]))
      else Fetching(name, ss[k].gen, None)
  {
    EntryStays(ss, es, j, k);
    assert Enabled(ss[k], es[k]) && ss[k + 1] == Step(ss[k], es[k]);
  }
}
