/**
 The accepted set of bearer tokens: the AuthTokens class of src/auth/token.ts.

 sha256 is taken as injective, so an entry's hash is the token itself.  Times
 are whole milliseconds, `None` as an expiry means that the token never expires.
 */
module AuthTokens {
  import opened Wrappers

  type Token = string

  datatype TokenEntry = TokenEntry(hash: Token, expiresAt: Option<int>, tag: string)

  const GRACED := "-graced"

  predicate IsGraced(tag: string) {
    |tag| >= |GRACED| && tag[|tag| - |GRACED|..] == GRACED
  }

  predicate Live(e: TokenEntry, now: int) {
    e.expiresAt == None || now <= e.expiresAt.value
  }

  predicate HasHash(es: seq<TokenEntry>, hash: Token) {
    exists i :: 0 <= i < |es| && es[i].hash == hash
  }

  predicate Accepts(es: seq<TokenEntry>, presented: Token, now: int) {
    presented != "" && exists i :: 0 <= i < |es| && es[i].hash == presented && Live(es[i], now)
  }

  // ---------------------------------------------------------------- the two swaps

  function KeptGraced(es: seq<TokenEntry>, other: seq<TokenEntry>, now: int): seq<TokenEntry> {
    if es == [] then []
    else
      var e := es[0];
      (if IsGraced(e.tag) && e.expiresAt.Some? && now <= e.expiresAt.value && !HasHash(other, e.hash) then [e] else [])
      + KeptGraced(es[1..], other, now)
  }

  function Replaced(es: seq<TokenEntry>, other: seq<TokenEntry>, now: int): seq<TokenEntry> {
    other + KeptGraced(es, other, now)
  }

  /** When a grace that ends at `cutoff` is over for this entry. */
  function GraceEnd(e: TokenEntry, cutoff: int): int {
    if e.expiresAt == None || cutoff <= e.expiresAt.value then cutoff else e.expiresAt.value
  }

  function GracedEntry(e: TokenEntry, cutoff: int): TokenEntry {
    TokenEntry(e.hash, Some(GraceEnd(e, cutoff)), if IsGraced(e.tag) then e.tag else e.tag + GRACED)
  }

  function Graced(es: seq<TokenEntry>, other: seq<TokenEntry>, now: int, cutoff: int): seq<TokenEntry> {
    if es == [] then []
    else
      var e := es[0];
      (if Live(e, now) && !HasHash(other, e.hash) then [GracedEntry(e, cutoff)] else [])
      + Graced(es[1..], other, now, cutoff)
  }

  function Adopted(es: seq<TokenEntry>, other: seq<TokenEntry>, grace: int, now: int): seq<TokenEntry> {
    other + Graced(es, other, now, now + grace)
  }

  class AuthTokens {
    var entries: seq<TokenEntry>

    constructor (entries: seq<TokenEntry>)
      ensures this.entries == entries
    {
      this.entries := entries;
    }

    method ReplaceWith(other: AuthTokens, now: int)
      modifies this
      ensures entries == Replaced(old(entries), old(other.entries), now)
    {
      var keptGraced := KeptGraced(entries, other.entries, now);
      entries := other.entries + keptGraced;
    }

    method AdoptWithGrace(other: AuthTokens, graceMs: int, now: int)
      modifies this
      ensures entries == Adopted(old(entries), old(other.entries), graceMs, now)
    {
      var cutoff := now + graceMs;
      var graced := Graced(entries, other.entries, now, cutoff);
      entries := other.entries + graced;
    }

    /** Compares against every entry: the loop has no early exit. */
    method Verify(presented: Token, now: int) returns (ok: bool)
      ensures ok <==> Accepts(entries, presented, now)
    {
      if presented == "" {
        return false;
      }
      ok := false;
      for i := 0 to |entries|
        invariant ok <==> exists k :: 0 <= k < i && entries[k].hash == presented && Live(entries[k], now)
      {
        var isMatch := presented == entries[i].hash;
        var live := Live(entries[i], now);
        ok := ok || (isMatch && live);
      }
    }
  }

  // ---------------------------------------------------------------- entry by entry

  ghost predicate Distinct(es: seq<TokenEntry>) {
    forall i, j :: 0 <= i < j < |es| ==> es[i].hash != es[j].hash
  }

  /** `e` is the one entry for its hash. */
  ghost predicate Sole(es: seq<TokenEntry>, e: TokenEntry) {
    e in es && forall f :: f in es && f.hash == e.hash ==> f == e
  }

  lemma LabelGraced(tag: string)
    ensures IsGraced(tag + GRACED)
  {
  }

  lemma GracedTag(e: TokenEntry, cutoff: int)
    ensures IsGraced(GracedEntry(e, cutoff).tag)
  {
    if !IsGraced(e.tag) { LabelGraced(e.tag); }
  }

  lemma HasHashIn(es: seq<TokenEntry>, hash: Token)
    ensures HasHash(es, hash) <==> exists e :: e in es && e.hash == hash
  {
    if e :| e in es && e.hash == hash {
      var i :| 0 <= i < |es| && es[i] == e;
      assert es[i].hash == hash;
    }
  }

  lemma AcceptsIn(es: seq<TokenEntry>, presented: Token, now: int)
    ensures Accepts(es, presented, now) <==> presented != "" && exists e :: e in es && e.hash == presented && Live(e, now)
  {
    if e :| e in es && e.hash == presented && Live(e, now) {
      var i :| 0 <= i < |es| && es[i] == e;
      assert es[i].hash == presented;
    }
  }

  /** What survives a `replaceWith`: the live graced entries that the new set does not define. */
  lemma {:induction false} KeptGracedExactly(es: seq<TokenEntry>, other: seq<TokenEntry>, now: int, e: TokenEntry)
    ensures e in KeptGraced(es, other, now) <==>
      e in es && IsGraced(e.tag) && e.expiresAt.Some? && now <= e.expiresAt.value && !HasHash(other, e.hash)
    decreases |es|
  {
    if es != [] {
      KeptGracedExactly(es[1..], other, now, e);
      assert e in es <==> e == es[0] || e in es[1..];
    }
  }

  /** What survives an `adoptWithGrace`: the live entries the new set does not define, under their grace. */
  lemma {:induction false} GracedExactly(es: seq<TokenEntry>, other: seq<TokenEntry>, now: int, cutoff: int, g: TokenEntry)
    ensures g in Graced(es, other, now, cutoff) <==>
      exists e :: e in es && Live(e, now) && !HasHash(other, e.hash) && g == GracedEntry(e, cutoff)
    decreases |es|
  {
    if es != [] {
      GracedExactly(es[1..], other, now, cutoff, g);
      if g in Graced(es, other, now, cutoff) && g !in Graced(es[1..], other, now, cutoff) {
        assert es[0] in es;
      }
      if e :| e in es && Live(e, now) && !HasHash(other, e.hash) && g == GracedEntry(e, cutoff) {
        assert e == es[0] || e in es[1..];
      }
    }
  }

  lemma {:induction false} KeptGracedDistinct(es: seq<TokenEntry>, other: seq<TokenEntry>, now: int)
    requires Distinct(es)
    ensures Distinct(KeptGraced(es, other, now))
    decreases |es|
  {
    if es != [] {
      var rest := KeptGraced(es[1..], other, now);
      KeptGracedDistinct(es[1..], other, now);
      forall f | f in rest ensures f.hash != es[0].hash {
        KeptGracedExactly(es[1..], other, now, f);
        var i :| 0 <= i < |es[1..]| && es[1..][i] == f;
        assert es[i + 1] == f;
      }
    }
  }

  lemma {:induction false} GracedDistinct(es: seq<TokenEntry>, other: seq<TokenEntry>, now: int, cutoff: int)
    requires Distinct(es)
    ensures Distinct(Graced(es, other, now, cutoff))
    decreases |es|
  {
    if es != [] {
      var rest := Graced(es[1..], other, now, cutoff);
      GracedDistinct(es[1..], other, now, cutoff);
      forall g | g in rest ensures g.hash != es[0].hash {
        GracedExactly(es[1..], other, now, cutoff, g);
        var e :| e in es[1..] && g == GracedEntry(e, cutoff);
        var i :| 0 <= i < |es[1..]| && es[1..][i] == e;
        assert es[i + 1] == e;
      }
    }
  }

  lemma AppendDistinct(a: seq<TokenEntry>, b: seq<TokenEntry>)
    requires Distinct(a) && Distinct(b) && forall e :: e in b ==> !HasHash(a, e.hash)
    ensures Distinct(a + b)
  {
    var c := a + b;
    forall i, j | 0 <= i < j < |c| ensures c[i].hash != c[j].hash {
      if i < |a| <= j {
        assert c[j] in b;
        assert a[i].hash == c[i].hash;
      }
    }
  }

  // ---------------------------------------------------------------- sequences of swaps

  datatype Swap = ReplaceWith(other: seq<TokenEntry>, now: int) | AdoptWithGrace(other: seq<TokenEntry>, now: int)

  function Swapped(es: seq<TokenEntry>, s: Swap, grace: int): seq<TokenEntry> {
    match s
    case ReplaceWith(other, now) => Replaced(es, other, now)
    case AdoptWithGrace(other, now) => Adopted(es, other, grace, now)
  }

  function AllSwapped(es: seq<TokenEntry>, ss: seq<Swap>, grace: int): seq<TokenEntry>
    decreases |ss|
  {
    if ss == [] then es else AllSwapped(Swapped(es, ss[0], grace), ss[1..], grace)
  }

  /** The clock of the swaps never runs backwards. */
  ghost predicate Monotone(ss: seq<Swap>) {
    forall i, j :: 0 <= i <= j < |ss| ==> ss[i].now <= ss[j].now
  }

  lemma ReplacedExactly(es: seq<TokenEntry>, other: seq<TokenEntry>, now: int, f: TokenEntry)
    ensures f in Replaced(es, other, now) <==>
      || f in other
      || (f in es && IsGraced(f.tag) && f.expiresAt.Some? && now <= f.expiresAt.value && !HasHash(other, f.hash))
  {
    KeptGracedExactly(es, other, now, f);
  }

  lemma AdoptedExactly(es: seq<TokenEntry>, other: seq<TokenEntry>, grace: int, now: int, f: TokenEntry)
    ensures f in Adopted(es, other, grace, now) <==>
      || f in other
      || exists e :: e in es && Live(e, now) && !HasHash(other, e.hash) && f == GracedEntry(e, now + grace)
  {
    var graced := Graced(es, other, now, now + grace);
    GracedExactly(es, other, now, now + grace, f);
    InEither(other, graced, f);
  }

  lemma InEither(a: seq<TokenEntry>, b: seq<TokenEntry>, f: TokenEntry)
    ensures f in a + b <==> f in a || f in b
  {
  }

  lemma ReplacedDistinct(es: seq<TokenEntry>, other: seq<TokenEntry>, now: int)
    requires Distinct(es) && Distinct(other)
    ensures Distinct(Replaced(es, other, now))
  {
    var kept := KeptGraced(es, other, now);
    KeptGracedDistinct(es, other, now);
    forall e | e in kept ensures !HasHash(other, e.hash) {
      KeptGracedExactly(es, other, now, e);
    }
    AppendDistinct(other, kept);
  }

  lemma AdoptedDistinct(es: seq<TokenEntry>, other: seq<TokenEntry>, grace: int, now: int)
    requires Distinct(es) && Distinct(other)
    ensures Distinct(Adopted(es, other, grace, now))
  {
    var graced := Graced(es, other, now, now + grace);
    GracedDistinct(es, other, now, now + grace);
    forall e | e in graced ensures !HasHash(other, e.hash) {
      GracedExactly(es, other, now, now + grace, e);
    }
    AppendDistinct(other, graced);
  }

  /** Hashes stay pairwise distinct over any sequence of swaps. */
  lemma {:induction false} SwapsKeepDistinct(es: seq<TokenEntry>, ss: seq<Swap>, grace: int)
    requires Distinct(es) && forall i :: 0 <= i < |ss| ==> Distinct(ss[i].other)
    ensures Distinct(AllSwapped(es, ss, grace))
    decreases |ss|
  {
    if ss != [] {
      SwapDistinct(es, ss[0], grace);
      SwapsKeepDistinct(Swapped(es, ss[0], grace), ss[1..], grace);
    }
  }

  lemma SwapDistinct(es: seq<TokenEntry>, s: Swap, grace: int)
    requires Distinct(es) && Distinct(s.other)
    ensures Distinct(Swapped(es, s, grace))
  {
    if s.ReplaceWith? {
      ReplacedDistinct(es, s.other, s.now);
    } else {
      AdoptedDistinct(es, s.other, grace, s.now);
    }
  }

  lemma SwapNeverExtends(es: seq<TokenEntry>, s: Swap, grace: int, token: Token, t: int)
    requires !HasHash(s.other, token) && Accepts(Swapped(es, s, grace), token, t)
    ensures Accepts(es, token, t)
  {
    AcceptsIn(Swapped(es, s, grace), token, t);
    AcceptsIn(es, token, t);
    HasHashIn(s.other, token);
    var f :| f in Swapped(es, s, grace) && f.hash == token && Live(f, t);
    if s.ReplaceWith? {
      ReplacedExactly(es, s.other, s.now, f);
    } else {
      AdoptedExactly(es, s.other, grace, s.now, f);
    }
  }

  /** Grace never extends a lifetime: what a run of swaps accepts of a token they do not define anew
      was accepted before them, at every moment. */
  lemma {:induction false} SwapsNeverExtend(es: seq<TokenEntry>, ss: seq<Swap>, grace: int, token: Token, t: int)
    requires forall i :: 0 <= i < |ss| ==> !HasHash(ss[i].other, token)
    requires Accepts(AllSwapped(es, ss, grace), token, t)
    ensures Accepts(es, token, t)
    decreases |ss|
  {
    if ss != [] {
      SwapsNeverExtend(Swapped(es, ss[0], grace), ss[1..], grace, token, t);
      SwapNeverExtends(es, ss[0], grace, token, t);
    }
  }

  /** The entry a graced token has while its grace lasts; once a swap ran after `expiry` it may be pruned. */
  ghost predicate GracedUntil(es: seq<TokenEntry>, token: Token, expiry: int, clock: int) {
    AllGraced(es, token, expiry) && (clock <= expiry ==> Occurs(es, token))
  }

  predicate AllGraced(es: seq<TokenEntry>, token: Token, expiry: int) {
    es == [] ||
    ((es[0].hash == token ==> es[0].expiresAt == Some(expiry) && IsGraced(es[0].tag)) && AllGraced(es[1..], token, expiry))
  }

  predicate Occurs(es: seq<TokenEntry>, token: Token) {
    es != [] && (es[0].hash == token || Occurs(es[1..], token))
  }

  lemma {:induction false} AllGracedMeans(es: seq<TokenEntry>, token: Token, expiry: int)
    ensures AllGraced(es, token, expiry) <==>
              forall e :: e in es && e.hash == token ==> e.expiresAt == Some(expiry) && IsGraced(e.tag)
    decreases |es|
  {
    if es != [] {
      AllGracedMeans(es[1..], token, expiry);
      assert forall e :: e in es <==> e == es[0] || e in es[1..];
    }
  }

  lemma {:induction false} OccursMeans(es: seq<TokenEntry>, token: Token)
    ensures Occurs(es, token) <==> exists e :: e in es && e.hash == token
    decreases |es|
  {
    if es != [] {
      OccursMeans(es[1..], token);
      assert forall e :: e in es <==> e == es[0] || e in es[1..];
    }
  }

  lemma StaysGraced(es: seq<TokenEntry>, s: Swap, grace: int, expiry: int, f: TokenEntry)
    requires forall e :: e in es && e.hash == f.hash ==> e.expiresAt == Some(expiry) && IsGraced(e.tag)
    requires f in Swapped(es, s, grace) && !HasHash(s.other, f.hash) && expiry <= s.now + grace
    ensures f.expiresAt == Some(expiry) && IsGraced(f.tag)
  {
    HasHashIn(s.other, f.hash);
    if s.ReplaceWith? {
      ReplacedExactly(es, s.other, s.now, f);
    } else {
      AdoptedExactly(es, s.other, grace, s.now, f);
    }
  }

  lemma GracedSurvives(es: seq<TokenEntry>, s: Swap, grace: int, expiry: int, e: TokenEntry)
    requires e in es && e.expiresAt == Some(expiry) && IsGraced(e.tag) && s.now <= expiry <= s.now + grace
    requires !HasHash(s.other, e.hash)
    ensures e in Swapped(es, s, grace)
  {
    assert GracedEntry(e, s.now + grace) == e;
    if s.ReplaceWith? {
      ReplacedExactly(es, s.other, s.now, e);
    } else {
      AdoptedExactly(es, s.other, grace, s.now, e);
    }
  }

  lemma SwapKeepsGraced(es: seq<TokenEntry>, s: Swap, grace: int, token: Token, expiry: int, clock: int)
    requires GracedUntil(es, token, expiry, clock) && clock <= s.now && expiry <= s.now + grace
    requires !HasHash(s.other, token)
    ensures GracedUntil(Swapped(es, s, grace), token, expiry, s.now)
  {
    var after := Swapped(es, s, grace);
    AllGracedMeans(es, token, expiry);
    AllGracedMeans(after, token, expiry);
    forall f | f in after && f.hash == token ensures f.expiresAt == Some(expiry) && IsGraced(f.tag) {
      StaysGraced(es, s, grace, expiry, f);
    }
    if s.now <= expiry {
      OccursMeans(es, token);
      OccursMeans(after, token);
      var e :| e in es && e.hash == token;
      GracedSurvives(es, s, grace, expiry, e);
    }
  }

  lemma AdoptionGraces(es: seq<TokenEntry>, other: seq<TokenEntry>, grace: int, now: int, e: TokenEntry)
    requires Sole(es, e) && Live(e, now) && !HasHash(other, e.hash)
    ensures GracedUntil(Adopted(es, other, grace, now), e.hash, GraceEnd(e, now + grace), now)
  {
    var g, after := GracedEntry(e, now + grace), Adopted(es, other, grace, now);
    AllGracedMeans(after, e.hash, GraceEnd(e, now + grace));
    OccursMeans(after, e.hash);
    HasHashIn(other, e.hash);
    GracedTag(e, now + grace);
    forall f | f in after && f.hash == e.hash ensures f == g {
      AdoptedExactly(es, other, grace, now, f);
    }
    AdoptedExactly(es, other, grace, now, g);
  }

  /** Swaps in the order of a clock that starts at `clock`, none of which defines `token` anew. */
  ghost predicate Passes(ss: seq<Swap>, token: Token, clock: int) {
    Monotone(ss) && forall i :: 0 <= i < |ss| ==> clock <= ss[i].now && !HasHash(ss[i].other, token)
  }

  lemma PassesRest(ss: seq<Swap>, token: Token, clock: int)
    requires ss != [] && Passes(ss, token, clock)
    ensures clock <= ss[0].now && !HasHash(ss[0].other, token) && Passes(ss[1..], token, ss[0].now)
  {
  }

  function LastClock(ss: seq<Swap>, clock: int): int {
    if ss == [] then clock else ss[|ss| - 1].now
  }

  lemma {:induction false} GraceLasts(es: seq<TokenEntry>, ss: seq<Swap>, grace: int, token: Token, expiry: int, clock: int)
    requires GracedUntil(es, token, expiry, clock) && expiry <= clock + grace && Passes(ss, token, clock)
    ensures GracedUntil(AllSwapped(es, ss, grace), token, expiry, LastClock(ss, clock))
    decreases |ss|
  {
    if ss != [] {
      PassesRest(ss, token, clock);
      SwapKeepsGraced(es, ss[0], grace, token, expiry, clock);
      GraceLasts(Swapped(es, ss[0], grace), ss[1..], grace, token, expiry, ss[0].now);
    }
  }

  /** After the first swap. */
  lemma FirstGrace(es: seq<TokenEntry>, s: Swap, grace: int, e: TokenEntry)
    requires s.AdoptWithGrace? && Sole(es, e) && Live(e, s.now) && !HasHash(s.other, e.hash)
    ensures GracedUntil(Swapped(es, s, grace), e.hash, GraceEnd(e, s.now + grace), s.now)
  {
    AdoptionGraces(es, s.other, grace, s.now, e);
  }

  lemma GraceOverRest(es: seq<TokenEntry>, ss: seq<Swap>, grace: int, token: Token, expiry: int)
    requires ss != [] && GracedUntil(Swapped(es, ss[0], grace), token, expiry, ss[0].now) && expiry <= ss[0].now + grace
    requires Passes(ss, token, ss[0].now)
    ensures GracedUntil(AllSwapped(es, ss, grace), token, expiry, ss[|ss| - 1].now)
  {
    PassesRest(ss, token, ss[0].now);
    GraceLasts(Swapped(es, ss[0], grace), ss[1..], grace, token, expiry, ss[0].now);
  }

  /** A token that was live when it was adopted keeps its graced entry through all later swaps that do
      not define it anew, until the earlier of its own expiry and the end of its grace. */
  lemma GraceIsKept(es: seq<TokenEntry>, ss: seq<Swap>, grace: int, e: TokenEntry)
    requires ss != [] && ss[0].AdoptWithGrace? && grace >= 0 && Sole(es, e) && Live(e, ss[0].now)
    requires Passes(ss, e.hash, ss[0].now)
    ensures GracedUntil(AllSwapped(es, ss, grace), e.hash, GraceEnd(e, ss[0].now + grace), ss[|ss| - 1].now)
  {
    assert GracedUntil(Swapped(es, ss[0], grace), e.hash, GraceEnd(e, ss[0].now + grace), ss[0].now) by {
      FirstGrace(es, ss[0], grace, e);
    }
    GraceOverRest(es, ss, grace, e.hash, GraceEnd(e, ss[0].now + grace));
  }

  /** It is accepted, from the last swap on, exactly until then. */
  lemma GraceIsExact(es: seq<TokenEntry>, ss: seq<Swap>, grace: int, e: TokenEntry, t: int)
    requires ss != [] && ss[0].AdoptWithGrace? && grace >= 0 && Sole(es, e) && Live(e, ss[0].now) && e.hash != ""
    requires Passes(ss, e.hash, ss[0].now)
    requires ss[|ss| - 1].now <= t
    ensures Accepts(AllSwapped(es, ss, grace), e.hash, t) <==> Live(e, t) && t <= ss[0].now + grace
  {
    GraceIsKept(es, ss, grace, e);
    GracedAccepts(AllSwapped(es, ss, grace), e.hash, GraceEnd(e, ss[0].now + grace), ss[|ss| - 1].now, t);
  }

  lemma GracedAccepts(es: seq<TokenEntry>, token: Token, expiry: int, clock: int, t: int)
    requires GracedUntil(es, token, expiry, clock) && token != "" && clock <= t
    ensures Accepts(es, token, t) <==> t <= expiry
  {
    AllGracedMeans(es, token, expiry);
    OccursMeans(es, token);
    AcceptsIn(es, token, t);
  }
}
