/**
 The rotation of src/auth/token.ts over the text of its file: `resolveAuthTokens`
 reads with `parsePersisted` and saves with `persist`.  Over operator lines without
 other line terminators the text always says what RotationRuns takes the file to be.
 */
module TokenFile {
  import opened Wrappers
  import opened Rotation
  import opened EnvFile
  import RotationRuns

  // ---------------------------------------------------------------- what is read can be stored

  lemma {:induction false} TrimStartSuffix(s: string)
    ensures |TrimStart(s)| <= |s| && TrimStart(s) == s[|s| - |TrimStart(s)|..]
    ensures TrimStart(s) != "" ==> !IsSpace(TrimStart(s)[0])
    decreases |s|
  {
    if s != "" && IsSpace(s[0]) {
      TrimStartSuffix(s[1..]);
    }
  }

  lemma {:induction false} TrimEndPrefix(s: string)
    ensures |TrimEnd(s)| <= |s| && TrimEnd(s) == s[..|TrimEnd(s)|]
    ensures TrimEnd(s) != "" ==> !IsSpace(TrimEnd(s)[|TrimEnd(s)| - 1])
    decreases |s|
  {
    if s != "" && IsSpace(s[|s| - 1]) {
      TrimEndPrefix(s[..|s| - 1]);
    }
  }

  lemma TrimStores(v: string)
    requires Whole(v, IsTerminator) && Trim(v) != ""
    ensures Storable(Trim(v))
  {
    TrimStartSuffix(v);
    TrimEndPrefix(TrimStart(v));
    var t := TrimStart(v);
    assert t[..|Trim(v)|][0] == t[0];
    forall i | 0 <= i < |Trim(v)| ensures !IsTerminator(Trim(v)[i]) {
      assert Trim(v)[i] == t[i] == v[|v| - |t| + i];
    }
  }

  lemma {:induction false} FirstValueWhole(lines: seq<string>, k: Key)
    requires forall j :: 0 <= j < |lines| ==> Whole(lines[j], IsTerminator)
    ensures FirstValue(lines, k).Some? ==> Whole(FirstValue(lines, k).value, IsTerminator)
    decreases |lines|
  {
    if lines != [] {
      FirstValueWhole(lines[1..], k);
    }
  }

  /** A value that was read is empty or can be stored. */
  lemma ReadStores(content: string, k: Key)
    ensures var v := ReadKey(content, k); v.Some? && v.value != "" ==> Storable(v.value)
  {
    PiecesAreWhole(content, IsTerminator);
    FirstValueWhole(Pieces(content, IsTerminator), k);
    var v := FirstValue(Pieces(content, IsTerminator), k);
    if v.Some? && Trim(v.value) != "" {
      TrimStores(v.value);
    }
  }

  // ---------------------------------------------------------------- what is resolved reads back

  /** An outgoing token is not empty, and only it has an expiry. */
  predicate Consistent(st: Persisted) {
    st.previous != Some("") && (st.previousExpires.Some? ==> st.previous.Some?)
  }

  /** The operator's lines hold no other line terminator. */
  predicate Plain(foreign: seq<string>) {
    forall j :: 0 <= j < |foreign| ==> Whole(foreign[j], IsTerminator)
  }

  predicate Rewrites(file: Persisted, o: Options, now: int, lookahead: int) {
    && !Truthy(o.envToken)
    && (!Truthy(file.token) || Stamps(file, o.ttl) || Rotates(file, o.ttl, now, lookahead) || Prunable(file, now))
  }

  /** The text after a resolve. */
  function ResolvedText(
    content: string, o: Options, now: int, lookahead: int, minted: string, saveOk: bool, num: NumCodec): string
  {
    var file := ParsePersisted(content, num);
    var next := Pruned(Renewed(file, o, now, lookahead, minted), now);
    if Rewrites(file, o, now, lookahead) && saveOk then Written(ForeignLines(content), next, num) else content
  }

  lemma NextStores(content: string, o: Options, now: int, lookahead: int, minted: string, num: NumCodec)
    requires Storable(minted)
    ensures StorableState(Pruned(Renewed(ParsePersisted(content, num), o, now, lookahead, minted), now))
  {
    ReadStores(content, TokenKey);
    ReadStores(content, PreviousKey);
  }

  lemma NextConsistent(file: Persisted, o: Options, now: int, lookahead: int, minted: string)
    requires Consistent(file)
    ensures Consistent(Pruned(Renewed(file, o, now, lookahead, minted), now))
  {
  }

  lemma PlainReadsBack(foreign: seq<string>, st: Persisted, num: NumCodec)
    requires Plain(foreign) && StorableState(st) && Consistent(st) && Faithful(num)
    requires forall j :: 0 <= j < |foreign| ==> Foreign(foreign[j])
    ensures ParsePersisted(Written(foreign, st, num), num) == st
  {
    PlainLinesShadowNothing(foreign, IssuedKey);
    PlainLinesShadowNothing(foreign, PreviousKey);
    PlainLinesShadowNothing(foreign, ExpiresKey);
    PersistedReadsBack(foreign, st, num);
  }

  lemma PlainUnstripped(foreign: seq<string>)
    requires Plain(foreign)
    ensures StripEach(foreign) == foreign
  {
    forall j | 0 <= j < |foreign| ensures !EndsInCr(foreign[j]) {
      assert Whole(foreign[j], IsTerminator);
      assert foreign[j] != "" ==> !IsTerminator(foreign[j][|foreign[j]| - 1]);
    }
    StripEachSame(foreign);
  }

  /** The text read after a resolve is the file that the resolve leaves, and the operator's lines are as before. */
  lemma ResolvedReadsBack(
    content: string, o: Options, now: int, lookahead: int, minted: string, saveOk: bool, num: NumCodec)
    requires Plain(ForeignLines(content)) && Consistent(ParsePersisted(content, num)) && Storable(minted) && Faithful(num)
    ensures var text := ResolvedText(content, o, now, lookahead, minted, saveOk, num);
      && ParsePersisted(text, num) == Resolve(ParsePersisted(content, num), o, now, lookahead, minted, saveOk).file
      && ForeignLines(text) == ForeignLines(content)
      && Consistent(ParsePersisted(text, num))
  {
    var file := ParsePersisted(content, num);
    var next := Pruned(Renewed(file, o, now, lookahead, minted), now);
    NextStores(content, o, now, lookahead, minted, num);
    NextConsistent(file, o, now, lookahead, minted);
    if Rewrites(file, o, now, lookahead) && saveOk {
      ForeignLinesAreForeign(content);
      PlainReadsBack(ForeignLines(content), next, num);
      OperatorLinesSurvive(content, next, num);
      PlainUnstripped(ForeignLines(content));
    }
  }

  // ---------------------------------------------------------------- whole runs over the text

  function TextStep(p: RotationRuns.Params, content: string, e: RotationRuns.Event, num: NumCodec): string {
    var o := if e.Start? then p.StartOptions() else p.TickOptions();
    ResolvedText(content, o, e.now, RotationRuns.Lookahead(p, e), e.minted, e.saveOk, num)
  }

  /** The texts of the file, one after each event. */
  ghost predicate IsTextRun(p: RotationRuns.Params, texts: seq<string>, es: seq<RotationRuns.Event>, num: NumCodec) {
    && |texts| == |es| + 1
    && forall i {:trigger es[i]} :: 0 <= i < |es| ==> Storable(es[i].minted) && texts[i + 1] == TextStep(p, texts[i], es[i], num)
  }

  /** The text reads as `file`, and holds these operator lines. */
  ghost predicate Says(text: string, file: Persisted, foreign: seq<string>, num: NumCodec) {
    ParsePersisted(text, num) == file && Consistent(file) && ForeignLines(text) == foreign
  }

  lemma TextFollows(
    p: RotationRuns.Params, text: string, s: RotationRuns.Server, e: RotationRuns.Event, foreign: seq<string>, num: NumCodec)
    requires Says(text, s.file, foreign, num) && Plain(foreign) && Storable(e.minted) && Faithful(num)
    ensures Says(TextStep(p, text, e, num), RotationRuns.Step(p, s, e).file, foreign, num)
  {
    var o := if e.Start? then p.StartOptions() else p.TickOptions();
    ResolvedReadsBack(text, o, e.now, RotationRuns.Lookahead(p, e), e.minted, e.saveOk, num);
  }

  lemma NextText(
    p: RotationRuns.Params, ss: seq<RotationRuns.Server>, es: seq<RotationRuns.Event>, texts: seq<string>,
    foreign: seq<string>, num: NumCodec, i: nat)
    requires RotationRuns.IsRun(p, ss, es) && IsTextRun(p, texts, es, num) && i < |es|
    requires Says(texts[i], ss[i].file, foreign, num) && Plain(foreign) && Faithful(num)
    ensures Says(texts[i + 1], ss[i + 1].file, foreign, num)
  {
    TextFollows(p, texts[i], ss[i], es[i], foreign, num);
  }

  ghost function Sayer(ss: seq<RotationRuns.Server>, texts: seq<string>, foreign: seq<string>, num: NumCodec): nat -> bool {
    (k: nat) => k < |ss| && k < |texts| && Says(texts[k], ss[k].file, foreign, num)
  }

  lemma TextStays(
    p: RotationRuns.Params, ss: seq<RotationRuns.Server>, es: seq<RotationRuns.Event>, texts: seq<string>,
    foreign: seq<string>, num: NumCodec, k: nat)
    requires RotationRuns.IsRun(p, ss, es) && IsTextRun(p, texts, es, num) && k < |es| && Plain(foreign) && Faithful(num)
    ensures StaysTrue(Sayer(ss, texts, foreign, num), k)
  {
    if Says(texts[k], ss[k].file, foreign, num) {
      NextText(p, ss, es, texts, foreign, num, k);
    }
  }

  /** Over a run that starts from a text with plain operator lines, the text always reads as the file of the
      run, so every promise proved of runs is one about the text; the operator's lines never change. */
  lemma TextIsTheFile(
    p: RotationRuns.Params, ss: seq<RotationRuns.Server>, es: seq<RotationRuns.Event>, texts: seq<string>,
    foreign: seq<string>, num: NumCodec, i: nat)
    requires RotationRuns.IsRun(p, ss, es) && IsTextRun(p, texts, es, num) && i < |ss|
    requires Says(texts[0], ss[0].file, foreign, num) && Plain(foreign) && Faithful(num)
    ensures Says(texts[i], ss[i].file, foreign, num)
  {
    forall k: nat | k < i ensures StaysTrue(Sayer(ss, texts, foreign, num), k) {
      TextStays(p, ss, es, texts, foreign, num, k);
    }
    TrueAlong(Sayer(ss, texts, foreign, num), i);
  }
}
