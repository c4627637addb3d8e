/**
 Runs of a server that keeps its auto-generated token rotating: (re)starts, which
 resolve without lookahead, and rotation ticks, which resolve one interval early
 and swap the result into the accepted set (startAutoRotation in src/auth/token.ts).
 */
module RotationRuns {
  import opened Wrappers
  import opened AuthTokens
  import opened Rotation

  /** The lifetime of a token, the overlap after a rotation, and the interval between ticks. */
  datatype Params = Params(ttl: int, grace: int, interval: int) {
    predicate Legal() {
      ttl > 0 && grace >= 0 && interval >= 0
    }

    function StartOptions(): Options {
      Options(None, None, Some(ttl), grace, true)
    }

    function TickOptions(): Options {
      StartOptions().(announceUnpersisted := false)
    }
  }

  /** `issued` and `promised` remember, for every token, what the file once said about it. */
  datatype Server = Server(
    file: Persisted,
    entries: seq<TokenEntry>,
    clock: int,
    issued: map<Token, int>,
    promised: map<Token, int>,
    seen: set<Token>)

  datatype Event =
    | Start(now: int, minted: Token, saveOk: bool)
    | Tick(now: int, adopted: int, minted: Token, saveOk: bool)

  function Resolved(p: Params, s: Server, e: Event): Resolution {
    match e
    case Start(now, minted, saveOk) => Resolve(s.file, p.StartOptions(), now, 0, minted, saveOk)
    case Tick(now, _, minted, saveOk) => Resolve(s.file, p.TickOptions(), now, p.interval, minted, saveOk)
  }

  function Lookahead(p: Params, e: Event): int {
    if e.Start? then 0 else p.interval
  }

  function Entries(p: Params, s: Server, e: Event): seq<TokenEntry> {
    var r := Resolved(p, s, e);
    match e
    case Start(_, _, _) => r.entries
    case Tick(_, adopted, _, _) =>
      if Truthy(s.file.token) then Replaced(s.entries, r.entries, adopted)
      else if Truthy(r.file.token) then Adopted(s.entries, r.entries, p.grace, adopted)
      else s.entries
  }

  /** What the file says of its current token is remembered. */
  function Recorded(issued: map<Token, int>, file: Persisted): map<Token, int> {
    if Truthy(file.token) && file.issued.Some? then issued[file.token.value := file.issued.value] else issued
  }

  function Step(p: Params, s: Server, e: Event): Server {
    var r := Resolved(p, s, e);
    var rotated := Rotates(s.file, Some(p.ttl), e.now, Lookahead(p, e)) && e.saveOk;
    Server(r.file, Entries(p, s, e), if e.Start? then e.now else e.adopted,
           Recorded(s.issued, r.file),
           if rotated && r.file.previous.Some? && r.file.previousExpires.Some?
           then s.promised[r.file.previous.value := r.file.previousExpires.value] else s.promised,
           s.seen + {e.minted})
  }

  predicate Enabled(s: Server, e: Event) {
    && s.clock <= e.now && (e.Tick? ==> e.now <= e.adopted)
    && e.minted != "" && e.minted !in s.seen
  }

  function Tokens(file: Persisted): set<Token> {
    (if file.token.Some? then {file.token.value} else {}) + (if file.previous.Some? then {file.previous.value} else {})
  }

  /** A server that has not started yet, over any token file. */
  predicate Initial(s: Server) {
    s.entries == [] && s.issued == map[] && s.promised == map[] && s.seen == Tokens(s.file)
  }

  ghost predicate IsRun(p: Params, ss: seq<Server>, es: seq<Event>) {
    && p.Legal()
    && |ss| == |es| + 1 && Initial(ss[0]) && (es != [] ==> es[0].Start?)
    && forall i {:trigger es[i]} :: 0 <= i < |es| ==> Enabled(ss[i], es[i]) && ss[i + 1] == Step(p, ss[i], es[i])
  }

  /** The closure of `startAutoRotation`: one token file, one accepted set. */
  class AutoRotation {
    const params: Params
    const store: TokenStore
    const tokens: AuthTokens

    constructor (params: Params, store: TokenStore, tokens: AuthTokens)
      ensures this.params == params && this.store == store && this.tokens == tokens
    {
      this.params, this.store, this.tokens := params, store, tokens;
    }

    method Tick(now: int, adopted: int, minted: Token, saveOk: bool) returns (announced: bool)
      modifies store, tokens
      ensures
        var before := Server(old(store.file), old(tokens.entries), now, map[], map[], {});
        var after := Step(params, before, Event.Tick(now, adopted, minted, saveOk));
        && store.file == after.file && tokens.entries == after.entries
        && announced == Resolved(params, before, Event.Tick(now, adopted, minted, saveOk)).announced
    {
      var hadPersisted := Truthy(store.file.token);
      var resolved;
      resolved, announced := store.ResolveAuthTokens(params.TickOptions(), now, params.interval, minted, saveOk);
      if hadPersisted {
        tokens.ReplaceWith(resolved, adopted);
      } else if Truthy(store.file.token) {
        tokens.AdoptWithGrace(resolved, params.grace, adopted);
      }
    }
  }

  // ---------------------------------------------------------------- what every step keeps

  /** Every token the file once issued is still its current one, or is the outgoing one for long
      enough, or has outlived its ttl. */
  ghost predicate IssuedKept(p: Params, s: Server) {
    && (s.issued != map[] ==> Truthy(s.file.token))
    && (Truthy(s.file.token) && s.file.issued.Some? && s.file.token.value in s.issued ==>
          s.issued[s.file.token.value] == s.file.issued.value)
    && forall t :: t in s.issued ==> TokenKept(p, s.file, t, s.issued[t], s.clock)
  }

  /** Issued at `since`, token `t` is current, or the outgoing one for long enough, or past its ttl. */
  ghost predicate TokenKept(p: Params, file: Persisted, t: Token, since: int, clock: int) {
    || (file.token == Some(t) && file.issued == Some(since))
    || (file.previous == Some(t) && file.previousExpires.Some? && file.previousExpires.value >= since + p.ttl
        && file.issued.Some? && file.issued.value >= since + p.ttl - p.interval)
    || clock > since + p.ttl
  }

  /** The outgoing token keeps its recorded expiry until it is reached. */
  ghost predicate PromiseKept(p: Params, s: Server) {
    forall t :: t in s.promised ==>
      || (&& s.file.previous == Some(t) && s.file.previousExpires == Some(s.promised[t]) && Truthy(s.file.token)
          && s.file.issued.Some? && s.promised[t] <= s.file.issued.value + Max(p.grace, p.interval))
      || s.clock > s.promised[t]
  }

  /** Fresh tokens stay fresh. */
  ghost predicate SeenAll(s: Server) {
    && Tokens(s.file) <= s.seen && s.issued.Keys <= s.seen && s.promised.Keys <= s.seen
    && forall e :: e in s.entries ==> e.hash in s.seen
  }

  /** The accepted set holds the live entries of the file; the rest is graced and unknown to the file. */
  ghost predicate Mirrors(p: Params, s: Server) {
    Truthy(s.file.token) && s.entries != [] ==>
      && (s.file.issued.Some? ==> Current(p, s.file) in s.entries)
      && (s.file.previous.Some? && s.file.previousExpires.Some? && s.clock <= s.file.previousExpires.value ==>
            Outgoing(s.file) in s.entries)
  }

  function Current(p: Params, file: Persisted): TokenEntry
    requires file.token.Some? && file.issued.Some?
  {
    TokenEntry(file.token.value, Some(file.issued.value + p.ttl), "generated")
  }

  function Outgoing(file: Persisted): TokenEntry
    requires file.previous.Some? && file.previousExpires.Some?
  {
    TokenEntry(file.previous.value, file.previousExpires, "rotated-out")
  }

  lemma TokenStep(p: Params, s: Server, e: Event, t: Token, since: int)
    requires p.Legal() && 2 * p.interval < p.ttl
    requires Enabled(s, e) && Truthy(s.file.token) && TokenKept(p, s.file, t, since, s.clock)
    ensures TokenKept(p, Step(p, s, e).file, t, since, Step(p, s, e).clock)
  {
  }

  lemma IssuedStep(p: Params, s: Server, e: Event)
    requires p.Legal() && 2 * p.interval < p.ttl
    requires Enabled(s, e) && SeenAll(s) && IssuedKept(p, s)
    ensures IssuedKept(p, Step(p, s, e))
  {
    var s1 := Step(p, s, e);
    assert Truthy(s.file.token) ==> Truthy(s1.file.token);
    forall t | t in s1.issued ensures TokenKept(p, s1.file, t, s1.issued[t], s1.clock) {
      if t in s.issued && s.issued[t] == s1.issued[t] {
        TokenStep(p, s, e, t, s.issued[t]);
      }
    }
    if Truthy(s1.file.token) && s1.file.issued.Some? && s.file.token == s1.file.token {
      assert s.file.issued.Some? ==> s1.file.issued == s.file.issued;
    }
  }

  lemma PromiseStep(p: Params, s: Server, e: Event)
    requires p.Legal() && 2 * p.interval < p.ttl && p.grace + p.interval < p.ttl
    requires Enabled(s, e) && SeenAll(s) && PromiseKept(p, s)
    ensures PromiseKept(p, Step(p, s, e))
  {
  }

  lemma ResolvedSeen(p: Params, s: Server, e: Event)
    requires SeenAll(s)
    ensures forall f :: f in Resolved(p, s, e).entries ==> f.hash in s.seen + {e.minted}
    ensures Tokens(Resolved(p, s, e).file) <= s.seen + {e.minted}
  {
    ResolveSeen(s.file, if e.Start? then p.StartOptions() else p.TickOptions(), e.now, Lookahead(p, e), e.minted, e.saveOk, s.seen);
  }

  lemma ResolveSeen(file: Persisted, o: Options, now: int, lookahead: int, minted: Token, saveOk: bool, seen: set<Token>)
    requires !Truthy(o.envToken) && Tokens(file) <= seen
    ensures var r := Resolve(file, o, now, lookahead, minted, saveOk);
      Tokens(r.file) <= seen + {minted} && forall f :: f in r.entries ==> f.hash in seen + {minted}
  {
    var next := Pruned(Renewed(file, o, now, lookahead, minted), now);
    assert Tokens(next) <= seen + {minted};
    assert forall f :: f in EntriesOf(next, o.ttl) ==> f.hash in Tokens(next);
    if file.token.Some? {
      assert forall f :: f in EntriesOf(file, o.ttl) ==> f.hash in Tokens(file);
    }
  }

  lemma EntryFromBefore(p: Params, s: Server, e: Event, r: Resolution, f: TokenEntry)
    requires e.Tick? && r == Resolved(p, s, e) && f in Entries(p, s, e) && f !in r.entries
    ensures exists o :: o in s.entries && o.hash == f.hash
  {
    if Truthy(s.file.token) {
      ReplacedExactly(s.entries, r.entries, e.adopted, f);
    } else if Truthy(r.file.token) {
      AdoptedExactly(s.entries, r.entries, p.grace, e.adopted, f);
    }
  }

  lemma SeenStep(p: Params, s: Server, e: Event)
    requires SeenAll(s)
    ensures SeenAll(Step(p, s, e))
  {
    var r := Resolved(p, s, e);
    ResolvedSeen(p, s, e);
    forall f | f in Entries(p, s, e) ensures f.hash in s.seen + {e.minted} {
      if f !in r.entries && e.Tick? {
        EntryFromBefore(p, s, e, r, f);
      }
    }
  }

  lemma MirrorsStep(p: Params, s: Server, e: Event)
    requires Enabled(s, e) && Mirrors(p, s)
    ensures Mirrors(p, Step(p, s, e))
  {
  }

  lemma {:induction false} RunKept(p: Params, ss: seq<Server>, es: seq<Event>, i: nat)
    requires IsRun(p, ss, es) && i < |ss|
    ensures SeenAll(ss[i]) && Mirrors(p, ss[i]) && (i > 0 ==> ss[i].entries != [])
    ensures 2 * p.interval < p.ttl ==> IssuedKept(p, ss[i])
    ensures 2 * p.interval < p.ttl && p.grace + p.interval < p.ttl ==> PromiseKept(p, ss[i])
    decreases i
  {
    if i > 0 {
      RunKept(p, ss, es, i - 1);
      var s, e := ss[i - 1], es[i - 1];
      assert ss[i] == Step(p, s, e);
      SeenStep(p, s, e);
      MirrorsStep(p, s, e);
      if 2 * p.interval < p.ttl {
        IssuedStep(p, s, e);
        if p.grace + p.interval < p.ttl { PromiseStep(p, s, e); }
      }
    }
  }

  // ---------------------------------------------------------------- the overlap promises

  /** Every token the file ever issued is accepted until its ttl ends. */
  ghost predicate IssuedPromise(p: Params) {
    forall ss: seq<Server>, es: seq<Event>, i: nat, t: Token, at: int ::
      IsRun(p, ss, es) && i < |ss| && t in ss[i].issued && ss[i].clock <= at <= ss[i].issued[t] + p.ttl ==>
        Accepts(ss[i].entries, t, at)
  }

  /** Every rotated-out token is accepted until the expiry recorded for it. */
  ghost predicate OutgoingPromise(p: Params) {
    forall ss: seq<Server>, es: seq<Event>, i: nat, t: Token, at: int ::
      IsRun(p, ss, es) && i < |ss| && t in ss[i].promised && ss[i].clock <= at <= ss[i].promised[t] ==>
        Accepts(ss[i].entries, t, at)
  }

  lemma IssuedTokenAccepted(p: Params, ss: seq<Server>, es: seq<Event>, i: nat, t: Token, at: int)
    requires 2 * p.interval < p.ttl && IsRun(p, ss, es) && i < |ss|
    requires t in ss[i].issued && ss[i].clock <= at <= ss[i].issued[t] + p.ttl
    ensures Accepts(ss[i].entries, t, at)
  {
    var s := ss[i];
    RunKept(p, ss, es, i);
    RunNonEmpty(p, ss, es, i);
    AcceptsIn(s.entries, t, at);
    assert TokenKept(p, s.file, t, s.issued[t], s.clock);
    if s.file.token == Some(t) && s.file.issued == Some(s.issued[t]) {
      assert Current(p, s.file) in s.entries;
    } else {
      assert Outgoing(s.file) in s.entries;
    }
  }

  lemma OutgoingTokenAccepted(p: Params, ss: seq<Server>, es: seq<Event>, i: nat, t: Token, at: int)
    requires 2 * p.interval < p.ttl && p.grace + p.interval < p.ttl && IsRun(p, ss, es) && i < |ss|
    requires t in ss[i].promised && ss[i].clock <= at <= ss[i].promised[t]
    ensures Accepts(ss[i].entries, t, at)
  {
    var s := ss[i];
    RunKept(p, ss, es, i);
    RunNonEmpty(p, ss, es, i);
    AcceptsIn(s.entries, t, at);
    assert Outgoing(s.file) in s.entries;
  }

  /** The empty string is never issued: it is not a token. */
  lemma {:induction false} RunNonEmpty(p: Params, ss: seq<Server>, es: seq<Event>, i: nat)
    requires IsRun(p, ss, es) && i < |ss|
    ensures "" !in ss[i].issued && "" !in ss[i].promised
    decreases i
  {
    if i > 0 {
      RunNonEmpty(p, ss, es, i - 1);
      assert ss[i] == Step(p, ss[i - 1], es[i - 1]);
    }
  }

  lemma FirstMint(p: Params, s: Server, s1: Server)
    requires p.Legal() && s == Server(Persisted(None, None, None, None), [], 0, map[], map[], {})
    requires s1 == Step(p, s, Start(0, "a", true))
    ensures Enabled(s, Start(0, "a", true)) && s1.file == Persisted(Some("a"), Some(0), None, None)
    ensures s1.issued == map["a" := 0] && s1.promised == map[] && s1.clock == 0 && s1.seen == {"a"}
    ensures forall e :: e in s1.entries ==> !IsGraced(e.tag)
  {
  }

  lemma FirstRotation(p: Params, s: Server, s1: Server, gap: int)
    requires p.Legal() && gap == Max(0, p.ttl - p.interval)
    requires s.file == Persisted(Some("a"), Some(0), None, None) && s.clock == 0 && s.issued == map["a" := 0] && s.promised == map[]
    requires s.seen == {"a"} && forall e :: e in s.entries ==> !IsGraced(e.tag)
    requires s1 == Step(p, s, Tick(gap, gap, "b", true))
    ensures Enabled(s, Tick(gap, gap, "b", true))
    ensures s1.file == Persisted(Some("b"), Some(gap), Some("a"), Some(Max(gap + p.grace, p.ttl)))
    ensures s1.issued == map["a" := 0, "b" := gap] && s1.promised == map["a" := Max(gap + p.grace, p.ttl)]
    ensures s1.clock == gap && s1.seen == {"a", "b"}
    ensures forall e :: e in s1.entries ==> !IsGraced(e.tag)
  {
    var r := Resolved(p, s, Tick(gap, gap, "b", true));
    forall e | e in s1.entries ensures !IsGraced(e.tag) {
      KeptGracedExactly(s.entries, r.entries, gap, e);
    }
  }

  lemma SecondRotation(p: Params, s: Server, s1: Server, gap: int)
    requires p.Legal() && gap == Max(0, p.ttl - p.interval)
    requires s.file == Persisted(Some("b"), Some(gap), Some("a"), Some(Max(gap + p.grace, p.ttl)))
    requires s.issued == map["a" := 0, "b" := gap] && s.promised == map["a" := Max(gap + p.grace, p.ttl)] && s.clock == gap
    requires s.seen == {"a", "b"} && forall e :: e in s.entries ==> !IsGraced(e.tag)
    requires s1 == Step(p, s, Tick(2 * gap, 2 * gap, "c", true))
    ensures Enabled(s, Tick(2 * gap, 2 * gap, "c", true))
    ensures "a" in s1.issued && s1.issued["a"] == 0
    ensures "a" in s1.promised && s1.promised["a"] == Max(gap + p.grace, p.ttl)
    ensures s1.clock == 2 * gap && !HasHash(s1.entries, "a")
  {
    var e := Tick(2 * gap, 2 * gap, "c", true);
    var r := Resolved(p, s, e);
    assert r.file.token == Some("c") && r.file.previous == Some("b");
    forall f | f in s1.entries ensures f.hash != "a" {
      KeptGracedExactly(s.entries, r.entries, 2 * gap, f);
    }
  }

  lemma ExtendRun(p: Params, ss: seq<Server>, es: seq<Event>, e: Event)
    requires IsRun(p, ss, es) && Enabled(ss[|es|], e) && (es == [] ==> e.Start?)
    ensures IsRun(p, ss + [Step(p, ss[|es|], e)], es + [e])
  {
    AppendStep(p, ss, es, e, Step(p, ss[|es|], e));
  }

  lemma AppendStep(p: Params, ss: seq<Server>, es: seq<Event>, e: Event, s: Server)
    requires IsRun(p, ss, es) && Enabled(ss[|es|], e) && s == Step(p, ss[|es|], e) && (es == [] ==> e.Start?)
    ensures IsRun(p, ss + [s], es + [e])
  {
    var ss1, es1 := ss + [s], es + [e];
    forall i {:trigger es1[i]} | 0 <= i < |es1| ensures Enabled(ss1[i], es1[i]) && ss1[i + 1] == Step(p, ss1[i], es1[i]) {
      if i < |es| {
        assert es1[i] == es[i] && ss1[i] == ss[i] && ss1[i + 1] == ss[i + 1];
      }
    }
  }

  lemma RunToFirst(p: Params) returns (ss: seq<Server>, es: seq<Event>)
    requires p.Legal()
    ensures IsRun(p, ss, es) && |es| == 1
    ensures var s := ss[1];
      && s.file == Persisted(Some("a"), Some(0), None, None) && s.clock == 0 && s.issued == map["a" := 0] && s.promised == map[]
      && s.seen == {"a"} && forall e :: e in s.entries ==> !IsGraced(e.tag)
  {
    var s0 := Server(Persisted(None, None, None, None), [], 0, map[], map[], {});
    var e := Start(0, "a", true);
    FirstMint(p, s0, Step(p, s0, e));
    assert IsRun(p, [s0], []);
    ExtendRun(p, [s0], [], e);
    ss, es := [s0] + [Step(p, s0, e)], [] + [e];
  }

  lemma RunToSecond(p: Params) returns (ss: seq<Server>, es: seq<Event>)
    requires p.Legal()
    ensures IsRun(p, ss, es) && |es| == 2
    ensures var gap, s := Max(0, p.ttl - p.interval), ss[2];
      && s.file == Persisted(Some("b"), Some(gap), Some("a"), Some(Max(gap + p.grace, p.ttl)))
      && s.issued == map["a" := 0, "b" := gap] && s.promised == map["a" := Max(gap + p.grace, p.ttl)] && s.clock == gap
      && s.seen == {"a", "b"} && forall e :: e in s.entries ==> !IsGraced(e.tag)
  {
    var gap := Max(0, p.ttl - p.interval);
    ss, es := RunToFirst(p);
    var s, e := ss[1], Tick(gap, gap, "b", true);
    FirstRotation(p, s, Step(p, s, e), gap);
    ExtendRun(p, ss, es, e);
    ss, es := ss + [Step(p, s, e)], es + [e];
  }

  /** A run in which two rotations follow as fast as the interval allows: "c" evicts "a". */
  lemma EvictingRun(p: Params) returns (ss: seq<Server>, es: seq<Event>)
    requires p.Legal()
    ensures IsRun(p, ss, es) && |es| == 3
    ensures var gap := Max(0, p.ttl - p.interval);
      && "a" in ss[3].issued && ss[3].issued["a"] == 0
      && "a" in ss[3].promised && ss[3].promised["a"] == Max(gap + p.grace, p.ttl)
      && ss[3].clock == 2 * gap && !Accepts(ss[3].entries, "a", 2 * gap)
  {
    var gap := Max(0, p.ttl - p.interval);
    ss, es := RunToSecond(p);
    var s, e := ss[2], Tick(2 * gap, 2 * gap, "c", true);
    var s1 := Step(p, s, e);
    SecondRotation(p, s, s1, gap);
    NotAccepted(s1.entries, "a", 2 * gap);
    ExtendRun(p, ss, es, e);
    ss, es := ss + [s1], es + [e];
  }

  lemma NotAccepted(entries: seq<TokenEntry>, t: Token, now: int)
    requires !HasHash(entries, t)
    ensures !Accepts(entries, t, now)
  {
    HasHashIn(entries, t);
    AcceptsIn(entries, t, now);
  }

  /** Two rotations in a row evict a token before its ttl unless the lookahead is less than half the ttl:
      the promise holds exactly then. */
  lemma IssuedPromiseExactly(p: Params)
    requires p.Legal()
    ensures IssuedPromise(p) <==> 2 * p.interval < p.ttl
  {
    if 2 * p.interval < p.ttl {
      forall ss: seq<Server>, es: seq<Event>, i: nat, t: Token, at: int |
        IsRun(p, ss, es) && i < |ss| && t in ss[i].issued && ss[i].clock <= at <= ss[i].issued[t] + p.ttl
        ensures Accepts(ss[i].entries, t, at)
      {
        IssuedTokenAccepted(p, ss, es, i, t, at);
      }
    } else {
      var ss, es := EvictingRun(p);
      var at := ss[3].clock;
      assert ss[3].clock <= at <= ss[3].issued["a"] + p.ttl;
      assert !Accepts(ss[3].entries, "a", at);
    }
  }

  /** The recorded end of the overlap is kept exactly when, besides, grace and lookahead fit in the ttl. */
  lemma OutgoingPromiseExactly(p: Params)
    requires p.Legal()
    ensures OutgoingPromise(p) <==> 2 * p.interval < p.ttl && p.grace + p.interval < p.ttl
  {
    if 2 * p.interval < p.ttl && p.grace + p.interval < p.ttl {
      forall ss: seq<Server>, es: seq<Event>, i: nat, t: Token, at: int |
        IsRun(p, ss, es) && i < |ss| && t in ss[i].promised && ss[i].clock <= at <= ss[i].promised[t]
        ensures Accepts(ss[i].entries, t, at)
      {
        OutgoingTokenAccepted(p, ss, es, i, t, at);
      }
    } else {
      var ss, es := EvictingRun(p);
      var at := ss[3].clock;
      assert ss[3].clock <= at <= ss[3].promised["a"];
      assert !Accepts(ss[3].entries, "a", at);
    }
  }

  // ---------------------------------------------------------------- no 401 window

  /** A tick whose save succeeds leaves an accepted set that accepts the token in the file until the
      next tick, if that comes within one interval and the interval is no longer than the ttl. */
  lemma NoGapAfterTick(p: Params, s: Server, e: Event, at: int)
    requires p.Legal() && p.interval <= p.ttl && Enabled(s, e) && e.Tick? && e.saveOk
    requires e.adopted <= at <= e.now + p.interval
    ensures var s1 := Step(p, s, e); Truthy(s1.file.token) && Accepts(s1.entries, s1.file.token.value, at)
  {
    var s1 := Step(p, s, e);
    assert s1.file.issued.Some? && Current(p, s1.file) in s1.entries;
    AcceptsIn(s1.entries, s1.file.token.value, at);
  }

  /** Ticks come at most one interval after the tick before them, and their saves succeed. */
  ghost predicate TicksOnTime(p: Params, es: seq<Event>) {
    forall i {:trigger es[i]} :: 0 < i < |es| && es[i - 1].Tick? ==> es[i - 1].saveOk && es[i].now <= es[i - 1].now + p.interval
  }

  lemma NoGapBetweenTicks(p: Params, ss: seq<Server>, es: seq<Event>, i: nat, at: int)
    requires IsRun(p, ss, es) && p.interval <= p.ttl && TicksOnTime(p, es)
    requires 0 < i < |es| && es[i - 1].Tick? && ss[i].clock <= at <= es[i].now
    ensures Truthy(ss[i].file.token) && Accepts(ss[i].entries, ss[i].file.token.value, at)
  {
    assert Enabled(ss[i - 1], es[i - 1]) && ss[i] == Step(p, ss[i - 1], es[i - 1]);
    assert es[i].now <= es[i - 1].now + p.interval;
    NoGapAfterTick(p, ss[i - 1], es[i - 1], at);
  }

  predicate Replaces(p: Params, s: Server, e: Event) {
    e.saveOk && (!Truthy(s.file.token) || Rotates(s.file, Some(p.ttl), e.now, Lookahead(p, e)))
  }

  lemma TokenAfterTick(p: Params, s: Server, e: Event)
    requires e.Tick?
    ensures Step(p, s, e).file.token == if Replaces(p, s, e) then Some(e.minted) else s.file.token
  {
  }

  lemma CurrentAccepted(p: Params, s: Server, at: int)
    requires Mirrors(p, s) && s.entries != [] && Truthy(s.file.token) && s.file.issued.Some?
    requires at <= s.file.issued.value + p.ttl
    ensures Accepts(s.entries, s.file.token.value, at)
  {
    AcceptsIn(s.entries, s.file.token.value, at);
    assert Current(p, s.file) in s.entries;
  }

  /** Between a tick's save and its swap the set still holds the old entries.  The token that the file named
      before is accepted through its ttl; the one it names now is accepted exactly if the tick did not replace
      it: a client that reads a new token in these moments is refused until the swap. */
  lemma SwapWindowExactly(p: Params, ss: seq<Server>, es: seq<Event>, i: nat, at: int)
    requires IsRun(p, ss, es) && 0 < i < |es| && es[i].Tick? && Truthy(ss[i].file.token) && ss[i].file.issued.Some?
    requires es[i].now <= at <= es[i].adopted && at <= ss[i].file.issued.value + p.ttl
    ensures Accepts(ss[i].entries, ss[i].file.token.value, at)
    ensures Truthy(ss[i + 1].file.token)
    ensures Accepts(ss[i].entries, ss[i + 1].file.token.value, at) <==> !Replaces(p, ss[i], es[i])
  {
    RunKept(p, ss, es, i);
    TickClock(p, ss, es, i);
    CurrentAccepted(p, ss[i], at);
    TokenAfterTick(p, ss[i], es[i]);
    AcceptsIn(ss[i].entries, es[i].minted, at);
  }

  /** With timely ticks and successful saves that ttl reaches the swap, if the swap too comes within one
      interval of the tick before. */
  lemma NoGapUntilSwap(p: Params, ss: seq<Server>, es: seq<Event>, i: nat, at: int)
    requires IsRun(p, ss, es) && p.interval <= p.ttl && TicksOnTime(p, es)
    requires 0 < i < |es| && es[i - 1].Tick? && es[i].Tick? && es[i].adopted <= es[i - 1].now + p.interval
    requires ss[i].clock <= at <= es[i].adopted
    ensures Truthy(ss[i].file.token) && Accepts(ss[i].entries, ss[i].file.token.value, at)
  {
    TickClock(p, ss, es, i - 1);
    assert es[i].now <= es[i - 1].now + p.interval;
    NoGapAfterTick(p, ss[i - 1], es[i - 1], at);
  }

  // ---------------------------------------------------------------- failed saves and pruning

  /** Pruning drops nothing that is still live. */
  lemma PruningIsInvisible(st: Persisted, ttl: Option<int>, now: int, t: Token, at: int)
    requires st.token.Some? && now <= at
    ensures Accepts(EntriesOf(Pruned(st, now), ttl), t, at) <==> Accepts(EntriesOf(st, ttl), t, at)
  {
    AcceptsIn(EntriesOf(Pruned(st, now), ttl), t, at);
    AcceptsIn(EntriesOf(st, ttl), t, at);
  }

  /** Apart from graced tokens, which the file never heard of, the accepted set comes from the file. */
  ghost predicate FromFile(p: Params, s: Server) {
    Truthy(s.file.token) ==> forall e :: e in s.entries ==>
      if IsGraced(e.tag) then e.expiresAt.Some? && e.hash !in Tokens(s.file)
      else s.file.issued.Some? ==> e in EntriesOf(s.file, Some(p.ttl))
  }

  lemma ListedUngraced(st: Persisted, ttl: Option<int>, f: TokenEntry)
    requires st.token.Some? && f in EntriesOf(st, ttl)
    ensures !IsGraced(f.tag)
  {
    assert f.tag == "generated" || f.tag == "rotated-out";
  }

  lemma ResolveLists(file: Persisted, o: Options, now: int, lookahead: int, minted: Token, saveOk: bool, f: TokenEntry)
    requires !Truthy(o.envToken) && f in Resolve(file, o, now, lookahead, minted, saveOk).entries
    ensures var kept := Resolve(file, o, now, lookahead, minted, saveOk).file;
      Truthy(kept.token) && (o.ttl.Some? ==> kept.issued.Some?) ==> f in EntriesOf(kept, o.ttl)
    ensures !IsGraced(f.tag)
  {
    var next := Pruned(Renewed(file, o, now, lookahead, minted), now);
    if !Truthy(file.token) || Stamps(file, o.ttl) || saveOk {
      ListedUngraced(next, o.ttl, f);
    } else if Rotates(file, o.ttl, now, lookahead) {
      ListedUngraced(file, o.ttl, f);
    } else {
      assert next == Pruned(file, now);
      ListedUngraced(next, o.ttl, f);
    }
  }

  /** What is resolved comes from the state of the file, saved or not. */
  lemma ResolvedFromFile(p: Params, s: Server, e: Event, f: TokenEntry)
    requires f in Resolved(p, s, e).entries
    ensures !IsGraced(f.tag)
    ensures var file := Resolved(p, s, e).file;
      Truthy(file.token) && file.issued.Some? ==> f in EntriesOf(file, Some(p.ttl))
  {
    ResolveLists(s.file, if e.Start? then p.StartOptions() else p.TickOptions(), e.now, Lookahead(p, e), e.minted, e.saveOk, f);
  }

  lemma TokensGrow(p: Params, s: Server, e: Event)
    ensures var r := Resolved(p, s, e);
      && Tokens(r.file) <= Tokens(s.file) + {e.minted}
      && (!Truthy(s.file.token) && Truthy(r.file.token) ==> Tokens(r.file) == {e.minted})
  {
  }

  /** An entry that a swap keeps is graced, and its token one of those before. */
  lemma ReplacedStays(es: seq<TokenEntry>, other: seq<TokenEntry>, now: int, f: TokenEntry)
    requires f in Replaced(es, other, now) && f !in other
    ensures f in es && IsGraced(f.tag) && f.expiresAt.Some?
  {
    ReplacedExactly(es, other, now, f);
  }

  lemma {:induction false} GracedFrom(es: seq<TokenEntry>, other: seq<TokenEntry>, now: int, cutoff: int, f: TokenEntry)
    returns (g: TokenEntry)
    requires f in Graced(es, other, now, cutoff)
    ensures g in es && f == GracedEntry(g, cutoff)
    decreases |es|
  {
    if Live(es[0], now) && !HasHash(other, es[0].hash) && f == GracedEntry(es[0], cutoff) {
      g := es[0];
    } else {
      g := GracedFrom(es[1..], other, now, cutoff, f);
    }
  }

  lemma AdoptedOrOther(es: seq<TokenEntry>, other: seq<TokenEntry>, grace: int, now: int, f: TokenEntry)
    requires f in Adopted(es, other, grace, now) && f !in other
    ensures f in Graced(es, other, now, now + grace)
  {
    InEither(other, Graced(es, other, now, now + grace), f);
  }

  lemma AdoptedStays(es: seq<TokenEntry>, other: seq<TokenEntry>, now: int, cutoff: int, f: TokenEntry) returns (g: TokenEntry)
    requires f in Graced(es, other, now, cutoff)
    ensures g in es && g.hash == f.hash && IsGraced(f.tag) && f.expiresAt.Some?
  {
    g := GracedFrom(es, other, now, cutoff, f);
    GracedTag(g, cutoff);
  }

  /** An entry that stays in the set as graced is still unknown to the file. */
  lemma GracedStaysUnknown(p: Params, s: Server, e: Event, f: TokenEntry, r: Resolution)
    requires Enabled(s, e) && e.Tick? && SeenAll(s) && FromFile(p, s) && r == Resolved(p, s, e) && Truthy(r.file.token)
    requires f in Entries(p, s, e) && f !in r.entries
    ensures IsGraced(f.tag) && f.expiresAt.Some? && f.hash !in Tokens(r.file)
  {
    TokensGrow(p, s, e);
    if Truthy(s.file.token) {
      ReplacedStays(s.entries, r.entries, e.adopted, f);
    } else {
      AdoptedOrOther(s.entries, r.entries, p.grace, e.adopted, f);
      var g := AdoptedStays(s.entries, r.entries, e.adopted, e.adopted + p.grace, f);
    }
  }

  lemma FromFileStep(p: Params, s: Server, e: Event)
    requires Enabled(s, e) && SeenAll(s) && FromFile(p, s)
    ensures FromFile(p, Step(p, s, e))
  {
    var r := Resolved(p, s, e);
    if Truthy(r.file.token) {
      forall f | f in Entries(p, s, e)
        ensures if IsGraced(f.tag) then f.expiresAt.Some? && f.hash !in Tokens(r.file)
                else r.file.issued.Some? ==> f in EntriesOf(r.file, Some(p.ttl))
      {
        if f in r.entries {
          ResolvedFromFile(p, s, e, f);
        } else {
          GracedStaysUnknown(p, s, e, f, r);
        }
      }
    }
  }

  lemma {:induction false} RunFromFile(p: Params, ss: seq<Server>, es: seq<Event>, i: nat)
    requires IsRun(p, ss, es) && i < |ss|
    ensures FromFile(p, ss[i])
    decreases i
  {
    if i > 0 {
      RunFromFile(p, ss, es, i - 1);
      RunKept(p, ss, es, i - 1);
      assert ss[i] == Step(p, ss[i - 1], es[i - 1]);
      FromFileStep(p, ss[i - 1], es[i - 1]);
    }
  }

  lemma FailedTick(p: Params, s: Server, e: Event, t: Token, at: int)
    requires e.Tick? && !e.saveOk && Rotates(s.file, Some(p.ttl), e.now, p.interval)
    ensures Step(p, s, e).file == s.file && !Resolved(p, s, e).announced
    ensures Step(p, s, e).entries == Replaced(s.entries, EntriesOf(s.file, Some(p.ttl)), e.adopted)
  {
  }

  lemma ListedIsMirrored(p: Params, s: Server, f: TokenEntry, at: int)
    requires Truthy(s.file.token) && s.file.issued.Some? && s.entries != [] && Mirrors(p, s) && s.clock <= at
    requires f in EntriesOf(s.file, Some(p.ttl)) && Live(f, at)
    ensures f in s.entries
  {
    assert f == Current(p, s.file) || f == Outgoing(s.file);
  }

  lemma GracedUnlisted(p: Params, file: Persisted, hash: Token)
    requires file.token.Some? && hash !in Tokens(file)
    ensures !HasHash(EntriesOf(file, Some(p.ttl)), hash)
  {
  }

  /** Replacing the set by what the file lists changes no answer while the set mirrors the file. */
  lemma ReplacedIsSame(p: Params, s: Server, now: int, t: Token, at: int)
    requires Truthy(s.file.token) && s.file.issued.Some? && s.entries != [] && FromFile(p, s) && Mirrors(p, s)
    requires s.clock <= now <= at
    ensures Accepts(Replaced(s.entries, EntriesOf(s.file, Some(p.ttl)), now), t, at) <==> Accepts(s.entries, t, at)
  {
    var listed := EntriesOf(s.file, Some(p.ttl));
    AcceptsIn(s.entries, t, at);
    AcceptsIn(Replaced(s.entries, listed, now), t, at);
    forall f | Live(f, at)
      ensures f in Replaced(s.entries, listed, now) <==> f in s.entries
    {
      ReplacedExactly(s.entries, listed, now, f);
      if f in listed {
        ListedIsMirrored(p, s, f, at);
      }
      if f in s.entries && IsGraced(f.tag) {
        GracedUnlisted(p, s.file, f.hash);
      }
    }
  }

  /** A rotation whose save fails is not announced, leaves the file, and changes no answer of `verify`. */
  lemma FailedRotationIsInvisible(p: Params, ss: seq<Server>, es: seq<Event>, i: nat, t: Token, at: int)
    requires IsRun(p, ss, es) && i < |es| && es[i].Tick? && !es[i].saveOk
    requires Rotates(ss[i].file, Some(p.ttl), es[i].now, p.interval)
    requires es[i].adopted <= at
    ensures ss[i + 1].file == ss[i].file && !Resolved(p, ss[i], es[i]).announced
    ensures Accepts(ss[i + 1].entries, t, at) <==> Accepts(ss[i].entries, t, at)
  {
    RunKept(p, ss, es, i);
    RunFromFile(p, ss, es, i);
    FailedTick(p, ss[i], es[i], t, at);
    TickClock(p, ss, es, i);
    ReplacedIsSame(p, ss[i], es[i].adopted, t, at);
  }

  // ---------------------------------------------------------------- announcements

  /** In every run a tick announces a token exactly when it has put that token into the file; a start also
      announces a fresh token that it could not save. */
  lemma AnnouncesExactly(p: Params, ss: seq<Server>, es: seq<Event>, i: nat)
    requires IsRun(p, ss, es) && i < |es|
    ensures Resolved(p, ss[i], es[i]).announced <==>
      ss[i + 1].file.token == Some(es[i].minted) || (es[i].Start? && !Truthy(ss[i].file.token))
  {
    RunKept(p, ss, es, i);
    assert Enabled(ss[i], es[i]) && ss[i + 1] == Step(p, ss[i], es[i]);
    assert ss[i].file.token.Some? ==> ss[i].file.token.value in Tokens(ss[i].file);
  }

  // ---------------------------------------------------------------- a token that could not be saved

  /** The unsaved token is all there is, or persistence recovered at tick `k` and it runs out its grace. */
  ghost predicate Survives(p: Params, ss: seq<Server>, es: seq<Event>, i: nat, j: nat)
    requires i < |es| && j < |ss| && |ss| == |es| + 1
  {
    var own := es[i].now + p.ttl;
    || (!Truthy(ss[j].file.token) && ss[j].entries == [TokenEntry(es[i].minted, Some(own), "generated")])
    || (Truthy(ss[j].file.token) && exists k ::
          RecoveredAt(ss, es, i, k, j) &&
          GracedUntil(ss[j].entries, es[i].minted, Min(own, es[k].adopted + p.grace), ss[j].clock))
  }

  function Min(a: int, b: int): int {
    if a <= b then a else b
  }

  ghost predicate RecoveredAt(ss: seq<Server>, es: seq<Event>, i: nat, k: int, j: nat) {
    i < k < j && k < |es| && k + 1 < |ss| && es[k].Tick? && !Truthy(ss[k].file.token) && Truthy(ss[k + 1].file.token)
  }

  lemma ResolvedWithout(p: Params, s: Server, e: Event, t: Token)
    requires Enabled(s, e) && t !in Tokens(s.file) && t in s.seen
    ensures !HasHash(Resolved(p, s, e).entries, t) && t !in Tokens(Resolved(p, s, e).file)
  {
  }

  lemma TickKeepsGraced(p: Params, s: Server, e: Event, t: Token, expiry: int)
    requires Enabled(s, e) && e.Tick? && t !in Tokens(s.file) && t in s.seen && Truthy(s.file.token)
    requires GracedUntil(s.entries, t, expiry, s.clock) && expiry <= s.clock + p.grace
    ensures GracedUntil(Step(p, s, e).entries, t, expiry, e.adopted) && Truthy(Step(p, s, e).file.token)
  {
    var r := Resolved(p, s, e);
    ResolvedWithout(p, s, e, t);
    SwapKeepsGraced(s.entries, ReplaceWith(r.entries, e.adopted), p.grace, t, expiry, s.clock);
  }

  lemma AdoptingEntries(p: Params, s: Server, e: Event)
    requires e.Tick? && !Truthy(s.file.token) && Truthy(Step(p, s, e).file.token)
    ensures Step(p, s, e).entries == Adopted(s.entries, Resolved(p, s, e).entries, p.grace, e.adopted)
  {
  }

  lemma LapsedAdopted(es: seq<TokenEntry>, o: TokenEntry, other: seq<TokenEntry>, grace: int, now: int)
    requires Sole(es, o) && !HasHash(other, o.hash) && !Live(o, now)
    ensures forall f :: f in Adopted(es, other, grace, now) ==> f.hash != o.hash
  {
    HasHashIn(other, o.hash);
    forall f | f in Adopted(es, other, grace, now) ensures f.hash != o.hash {
      AdoptedExactly(es, other, grace, now, f);
    }
  }

  /** A set with one entry for a token adopts another set: the entry gets its grace, or has lapsed. */
  lemma EntryAdopted(es: seq<TokenEntry>, o: TokenEntry, other: seq<TokenEntry>, grace: int, now: int)
    requires Sole(es, o) && !HasHash(other, o.hash) && o.expiresAt.Some?
    ensures GracedUntil(Adopted(es, other, grace, now), o.hash, Min(o.expiresAt.value, now + grace), now)
  {
    if Live(o, now) {
      assert GraceEnd(o, now + grace) == Min(o.expiresAt.value, now + grace);
      AdoptionGraces(es, other, grace, now, o);
    } else {
      var after := Adopted(es, other, grace, now);
      LapsedAdopted(es, o, other, grace, now);
      AllGracedMeans(after, o.hash, Min(o.expiresAt.value, now + grace));
    }
  }

  lemma SoleAlone(o: TokenEntry)
    ensures Sole([o], o)
  {
  }

  /** Persistence recovered: the tick adopts entries that do not hold the old token. */
  lemma RecoveryAdopts(p: Params, s: Server, e: Event, t: Token) returns (other: seq<TokenEntry>)
    requires Enabled(s, e) && e.Tick? && t !in Tokens(s.file) && t in s.seen
    requires !Truthy(s.file.token) && Truthy(Step(p, s, e).file.token)
    ensures Step(p, s, e).entries == Adopted(s.entries, other, p.grace, e.adopted) && !HasHash(other, t)
  {
    other := Resolved(p, s, e).entries;
    ResolvedWithout(p, s, e, t);
    AdoptingEntries(p, s, e);
  }

  lemma GraceGoesOn(p: Params, ss: seq<Server>, es: seq<Event>, i: nat, k: int, j: nat)
    requires |ss| == |es| + 1 && i < j < |es| && es[j].Tick? && RecoveredAt(ss, es, i, k, j) && Truthy(ss[j].file.token)
    requires Enabled(ss[j], es[j]) && ss[j + 1] == Step(p, ss[j], es[j]) && es[k].adopted <= ss[j].clock
    requires es[i].minted !in Tokens(ss[j].file) && es[i].minted in ss[j].seen
    requires GracedUntil(ss[j].entries, es[i].minted, Min(es[i].now + p.ttl, es[k].adopted + p.grace), ss[j].clock)
    ensures Survives(p, ss, es, i, j + 1)
  {
    TickKeepsGraced(p, ss[j], es[j], es[i].minted, Min(es[i].now + p.ttl, es[k].adopted + p.grace));
    assert RecoveredAt(ss, es, i, k, j + 1);
  }

  lemma RecoveredBefore(p: Params, ss: seq<Server>, es: seq<Event>, i: nat, k: int, j: nat)
    requires IsRun(p, ss, es) && i < j < |es| && RecoveredAt(ss, es, i, k, j)
    ensures es[k].adopted <= ss[j].clock
  {
    ClockGrows(p, ss, es, k + 1, j);
    TickClock(p, ss, es, k);
  }

  lemma TickClock(p: Params, ss: seq<Server>, es: seq<Event>, k: int)
    requires IsRun(p, ss, es) && 0 <= k < |es| && es[k].Tick?
    ensures ss[k + 1] == Step(p, ss[k], es[k]) && ss[k + 1].clock == es[k].adopted && Enabled(ss[k], es[k])
  {
    assert ss[k + 1] == Step(p, ss[k], es[k]);
  }

  lemma AdoptedAs(entries: seq<TokenEntry>, es: seq<TokenEntry>, o: TokenEntry, other: seq<TokenEntry>, grace: int, now: int)
    requires entries == Adopted(es, other, grace, now) && Sole(es, o) && !HasHash(other, o.hash) && o.expiresAt.Some?
    ensures GracedUntil(entries, o.hash, Min(o.expiresAt.value, now + grace), now)
  {
    EntryAdopted(es, o, other, grace, now);
  }

  lemma GraceStarts(
    p: Params, ss: seq<Server>, es: seq<Event>, i: nat, j: nat, o: TokenEntry, other: seq<TokenEntry>)
    requires |ss| == |es| + 1 && i < j < |es| && es[j].Tick? && !Truthy(ss[j].file.token) && Truthy(ss[j + 1].file.token)
    requires o.hash == es[i].minted && o.expiresAt == Some(es[i].now + p.ttl) && !HasHash(other, o.hash)
    requires ss[j].entries == [o] && ss[j + 1].clock == es[j].adopted
    requires ss[j + 1].entries == Adopted(ss[j].entries, other, p.grace, es[j].adopted)
    ensures Survives(p, ss, es, i, j + 1)
  {
    SoleAlone(o);
    AdoptedAs(ss[j + 1].entries, ss[j].entries, o, other, p.grace, es[j].adopted);
    GraceWitness(p, ss, es, i, j);
  }

  lemma GraceWaits(p: Params, ss: seq<Server>, es: seq<Event>, i: nat, j: nat)
    requires IsRun(p, ss, es) && i < j < |es| && es[j].Tick? && !Truthy(ss[j].file.token) && !Truthy(ss[j + 1].file.token)
    requires ss[j].entries == [TokenEntry(es[i].minted, Some(es[i].now + p.ttl), "generated")]
    ensures Survives(p, ss, es, i, j + 1)
  {
    TickClock(p, ss, es, j);
    TickWaits(p, ss[j], es[j]);
  }

  lemma TickWaits(p: Params, s: Server, e: Event)
    requires e.Tick? && !Truthy(s.file.token) && !Truthy(Step(p, s, e).file.token)
    ensures Step(p, s, e).entries == s.entries
  {
  }

  lemma GraceWitness(p: Params, ss: seq<Server>, es: seq<Event>, i: nat, j: nat)
    requires i < j < |es| && |ss| == |es| + 1 && es[j].Tick?
    requires !Truthy(ss[j].file.token) && Truthy(ss[j + 1].file.token)
    requires GracedUntil(ss[j + 1].entries, es[i].minted, Min(es[i].now + p.ttl, es[j].adopted + p.grace), ss[j + 1].clock)
    ensures Survives(p, ss, es, i, j + 1)
  {
    assert RecoveredAt(ss, es, i, j, j + 1);
  }

  lemma SurvivesTick(p: Params, ss: seq<Server>, es: seq<Event>, i: nat, j: nat)
    requires IsRun(p, ss, es) && i < j < |es| && es[j].Tick?
    requires Survives(p, ss, es, i, j) && es[i].minted !in Tokens(ss[j].file) && es[i].minted in ss[j].seen
    ensures Survives(p, ss, es, i, j + 1) && es[i].minted !in Tokens(ss[j + 1].file)
  {
    TickClock(p, ss, es, j);
    ResolvedWithout(p, ss[j], es[j], es[i].minted);
    if Truthy(ss[j].file.token) {
      var k :| RecoveredAt(ss, es, i, k, j) &&
        GracedUntil(ss[j].entries, es[i].minted, Min(es[i].now + p.ttl, es[k].adopted + p.grace), ss[j].clock);
      RecoveredBefore(p, ss, es, i, k, j);
      GraceGoesOn(p, ss, es, i, k, j);
    } else if Truthy(ss[j + 1].file.token) {
      var other := RecoveryAdopts(p, ss[j], es[j], es[i].minted);
      GraceStarts(p, ss, es, i, j, TokenEntry(es[i].minted, Some(es[i].now + p.ttl), "generated"), other);
    } else {
      GraceWaits(p, ss, es, i, j);
    }
  }

  lemma {:induction false} ClockGrows(p: Params, ss: seq<Server>, es: seq<Event>, i: nat, j: nat)
    requires IsRun(p, ss, es) && i <= j < |ss|
    ensures ss[i].clock <= ss[j].clock && ss[i].seen <= ss[j].seen
    decreases j
  {
    if i < j {
      ClockGrows(p, ss, es, i, j - 1);
      assert Enabled(ss[j - 1], es[j - 1]) && ss[j] == Step(p, ss[j - 1], es[j - 1]);
    }
  }

  lemma UnsavedStart(p: Params, s: Server, e: Event)
    requires Enabled(s, e) && SeenAll(s) && e.Start? && !e.saveOk && !Truthy(s.file.token)
    ensures var s1 := Step(p, s, e);
      && s1.entries == [TokenEntry(e.minted, Some(e.now + p.ttl), "generated")] && !Truthy(s1.file.token)
      && e.minted !in Tokens(s1.file) && e.minted in s1.seen
  {
  }

  lemma UnsavedBegins(p: Params, ss: seq<Server>, es: seq<Event>, i: nat)
    requires IsRun(p, ss, es) && i < |es| && es[i].Start? && !es[i].saveOk && !Truthy(ss[i].file.token)
    ensures Survives(p, ss, es, i, i + 1)
    ensures es[i].minted !in Tokens(ss[i + 1].file) && es[i].minted in ss[i + 1].seen
  {
    RunKept(p, ss, es, i);
    assert Enabled(ss[i], es[i]) && ss[i + 1] == Step(p, ss[i], es[i]);
    UnsavedStart(p, ss[i], es[i]);
  }

  /** It survives, and is not in the file, `k` ticks after the start at step `i`. */
  ghost function SurvivesAfter(p: Params, ss: seq<Server>, es: seq<Event>, i: nat): nat -> bool
    requires i < |es| && |ss| == |es| + 1
  {
    (k: nat) => i + 1 + k < |ss| && Survives(p, ss, es, i, i + 1 + k) && es[i].minted !in Tokens(ss[i + 1 + k].file)
  }

  lemma SurvivesNext(p: Params, ss: seq<Server>, es: seq<Event>, i: nat, k: nat)
    requires IsRun(p, ss, es) && i + 1 + k < |es| && es[i + 1 + k].Tick? && es[i].minted in ss[i + 1].seen
    ensures StaysTrue(SurvivesAfter(p, ss, es, i), k)
  {
    if SurvivesAfter(p, ss, es, i)(k) {
      ClockGrows(p, ss, es, i + 1, i + 1 + k);
      SurvivesTick(p, ss, es, i, i + 1 + k);
    }
  }

  lemma UnsavedTokenSurvives(p: Params, ss: seq<Server>, es: seq<Event>, i: nat, j: nat)
    requires IsRun(p, ss, es) && i < j < |ss|
    requires es[i].Start? && !es[i].saveOk && !Truthy(ss[i].file.token)
    requires forall m {:trigger es[m]} :: i < m < j ==> es[m].Tick?
    ensures Survives(p, ss, es, i, j) && es[i].minted !in Tokens(ss[j].file)
  {
    var after := SurvivesAfter(p, ss, es, i);
    UnsavedBegins(p, ss, es, i);
    forall k: nat | k < j - i - 1 ensures StaysTrue(after, k) {
      SurvivesNext(p, ss, es, i, k);
    }
    TrueAlong(after, j - i - 1);
  }

  /** The startup token of a server that could not save it is accepted, until the next restart, through
      its own ttl while nothing can be saved, and once persistence recovered through the usual grace. */
  lemma UnsavedTokenAccepted(p: Params, ss: seq<Server>, es: seq<Event>, i: nat, j: nat, at: int)
    requires IsRun(p, ss, es) && i < j < |ss|
    requires es[i].Start? && !es[i].saveOk && !Truthy(ss[i].file.token)
    requires forall m {:trigger es[m]} :: i < m < j ==> es[m].Tick?
    requires ss[j].clock <= at
    ensures !Truthy(ss[j].file.token) ==>
      (Accepts(ss[j].entries, es[i].minted, at) <==> at <= es[i].now + p.ttl)
    ensures Truthy(ss[j].file.token) ==>
      (exists k :: RecoveredAt(ss, es, i, k, j) &&
        (Accepts(ss[j].entries, es[i].minted, at) <==> at <= es[i].now + p.ttl && at <= es[k].adopted + p.grace))
  {
    UnsavedTokenSurvives(p, ss, es, i, j);
    assert Enabled(ss[i], es[i]);
    if Truthy(ss[j].file.token) {
      var k :| RecoveredAt(ss, es, i, k, j) &&
        GracedUntil(ss[j].entries, es[i].minted, Min(es[i].now + p.ttl, es[k].adopted + p.grace), ss[j].clock);
      GracedAccepts(ss[j].entries, es[i].minted, Min(es[i].now + p.ttl, es[k].adopted + p.grace), ss[j].clock, at);
      assert RecoveredAt(ss, es, i, k, j);
    } else {
      AcceptsIn(ss[j].entries, es[i].minted, at);
    }
  }
}
