/**
 The text of the token file: `parsePersisted`, `serialize` and `persist` of
 src/auth/token.ts.

 How JavaScript prints and reads a number is a parameter (`NumCodec`).
 */
module EnvFile {
  import opened Wrappers
  import opened Rotation

  // ---------------------------------------------------------------- characters and lines

  /** A line terminator of a JavaScript regular expression. */
  predicate IsTerminator(c: char) {
    c == '\n' || c == '\r' || c == '\U{2028}' || c == '\U{2029}'
  }

  /** What `trim` removes. */
  predicate IsSpace(c: char) {
    || c == '\t' || c == '\U{000B}' || c == '\U{000C}' || c == ' ' || c == '\U{00A0}' || c == '\U{1680}'
    || '\U{2000}' <= c <= '\U{200A}' || c == '\U{202F}' || c == '\U{205F}' || c == '\U{3000}' || c == '\U{FEFF}'
    || IsTerminator(c)
  }

  function TrimStart(s: string): string {
    if s != "" && IsSpace(s[0]) then TrimStart(s[1..]) else s
  }

  function TrimEnd(s: string): string {
    if s != "" && IsSpace(s[|s| - 1]) then TrimEnd(s[..|s| - 1]) else s
  }

  function Trim(s: string): string {
    TrimEnd(TrimStart(s))
  }

  /** The pieces of `s` between the characters that `cut` accepts. */
  function Pieces(s: string, cut: char -> bool): (ls: seq<string>)
    ensures ls != []
  {
    if s == "" then [""]
    else
      var rest := Pieces(s[1..], cut);
      if cut(s[0]) then [""] + rest else [[s[0]] + rest[0]] + rest[1..]
  }

  function IsNewline(c: char): bool {
    c == '\n'
  }

  predicate EndsInCr(line: string) {
    line != "" && line[|line| - 1] == '\r'
  }

  function StripCr(line: string): string {
    if EndsInCr(line) then line[..|line| - 1] else line
  }

  /** `s.split(/\r?\n/)`. */
  function SplitLines(s: string): seq<string> {
    var ls := Pieces(s, IsNewline);
    StripEach(ls[..|ls| - 1]) + [ls[|ls| - 1]]
  }

  function StripEach(ls: seq<string>): (r: seq<string>)
    ensures |r| == |ls|
  {
    seq(|ls|, i requires 0 <= i < |ls| => StripCr(ls[i]))
  }

  // ---------------------------------------------------------------- keys

  datatype Key = TokenKey | IssuedKey | PreviousKey | ExpiresKey

  function NameOf(k: Key): string {
    match k
    case TokenKey => "MCP_AUTH_TOKEN"
    case IssuedKey => "MCP_AUTH_TOKEN_ISSUED"
    case PreviousKey => "MCP_AUTH_TOKEN_PREVIOUS"
    case ExpiresKey => "MCP_AUTH_TOKEN_PREVIOUS_EXPIRES"
  }

  function Prefix(k: Key): string {
    NameOf(k) + "="
  }

  function Assignment(k: Key, value: string): string {
    Prefix(k) + value
  }

  predicate StartsWith(line: string, prefix: string) {
    |prefix| <= |line| && line[..|prefix|] == prefix
  }

  predicate Managed(line: string) {
    exists k: Key :: StartsWith(line, Prefix(k))
  }

  predicate Blank(line: string) {
    forall i :: 0 <= i < |line| ==> IsSpace(line[i])
  }

  /** The first line that assigns something to `k`: its value. */
  function FirstValue(lines: seq<string>, k: Key): Option<string> {
    if lines == [] then None
    else if StartsWith(lines[0], Prefix(k)) && |lines[0]| > |Prefix(k)| then Some(lines[0][|Prefix(k)|..])
    else FirstValue(lines[1..], k)
  }

  datatype NumCodec = NumCodec(toText: int -> string, fromText: string -> Option<int>) {
    function Show(n: int): string {
      toText(n)
    }

    function Read(s: string): Option<int> {
      fromText(s)
    }
  }

  function ReadKey(content: string, k: Key): Option<string> {
    match FirstValue(Pieces(content, IsTerminator), k)
    case None => None
    case Some(v) => Some(Trim(v))
  }

  function ReadNum(content: string, k: Key, num: NumCodec): Option<int> {
    match ReadKey(content, k)
    case None => None
    case Some(v) => num.Read(v)
  }

  function ParsePersisted(content: string, num: NumCodec): Persisted {
    Persisted(ReadKey(content, TokenKey), ReadNum(content, IssuedKey, num),
              ReadKey(content, PreviousKey), ReadNum(content, ExpiresKey, num))
  }

  // ---------------------------------------------------------------- writing

  function StateLines(st: Persisted, num: NumCodec): seq<string>
    requires st.token.Some?
  {
    [Assignment(TokenKey, st.token.value)]
    + (if st.issued.Some? then [Assignment(IssuedKey, num.Show(st.issued.value))] else [])
    + (if st.previous.Some? then
         [Assignment(PreviousKey, st.previous.value)]
         + (if st.previousExpires.Some? then [Assignment(ExpiresKey, num.Show(st.previousExpires.value))] else [])
       else [])
  }

  function JoinLines(ls: seq<string>): string {
    if ls == [] then "" else if |ls| == 1 then ls[0] else ls[0] + "\n" + JoinLines(ls[1..])
  }

  function Serialize(st: Persisted, num: NumCodec): string
    requires st.token.Some?
  {
    JoinLines(StateLines(st, num)) + "\n"
  }

  function Kept(lines: seq<string>): seq<string> {
    if lines == [] then []
    else (if !Blank(lines[0]) && !Managed(lines[0]) then [lines[0]] else []) + Kept(lines[1..])
  }

  /** The operator's own lines. */
  function ForeignLines(content: string): seq<string> {
    Kept(SplitLines(content))
  }

  function Written(foreign: seq<string>, st: Persisted, num: NumCodec): string
    requires st.token.Some?
  {
    Serialize(st, num) + (if |foreign| > 0 then JoinLines(foreign) + "\n" else "")
  }

  /** The data directory with its token file, or none. */
  class DataDir {
    var env: Option<string>

    constructor (env: Option<string>)
      ensures this.env == env
    {
      this.env := env;
    }

    /** An existing file that cannot be read is replaced; a write that fails changes nothing. */
    method Persist(st: Persisted, num: NumCodec, readable: bool, writable: bool) returns (saved: bool)
      requires st.token.Some?
      modifies this
      ensures saved == writable
      ensures env == if !writable then old(env)
                     else Some(Written(if old(env).Some? && readable then ForeignLines(old(env).value) else [], st, num))
      ensures writable && StorableState(st) && Faithful(num) ==>
        ForeignLines(env.value) == if old(env).Some? && readable then StripEach(ForeignLines(old(env).value)) else []
    {
      var foreign := [];
      if env.Some? && readable {
        foreign := ForeignLines(env.value);
      }
      var content := Serialize(st, num);
      if |foreign| > 0 {
        content := content + (JoinLines(foreign) + "\n");
      }
      assert content == Written(foreign, st, num);
      if !writable {
        return false;
      }
      if StorableState(st) && Faithful(num) {
        OperatorLinesSurvive(if old(env).Some? && readable then old(env).value else "", st, num);
        NothingForeign();
      }
      env := Some(content);
      return true;
    }
  }

  // ---------------------------------------------------------------- lines of a written file

  function Unlines(ls: seq<string>): string {
    if ls == [] then "" else ls[0] + "\n" + Unlines(ls[1..])
  }

  lemma {:induction false} JoinIsUnlines(ls: seq<string>)
    requires ls != []
    ensures JoinLines(ls) + "\n" == Unlines(ls)
    decreases |ls|
  {
    if |ls| > 1 {
      JoinIsUnlines(ls[1..]);
    } else {
      assert Unlines(ls[1..]) == "";
    }
  }

  lemma {:induction false} UnlinesConcat(a: seq<string>, b: seq<string>)
    ensures Unlines(a + b) == Unlines(a) + Unlines(b)
    decreases |a|
  {
    if a == [] {
      assert a + b == b;
    } else {
      assert (a + b)[1..] == a[1..] + b;
      UnlinesConcat(a[1..], b);
    }
  }

  lemma WrittenIsUnlines(foreign: seq<string>, st: Persisted, num: NumCodec)
    requires st.token.Some?
    ensures Written(foreign, st, num) == Unlines(StateLines(st, num) + foreign)
  {
    JoinIsUnlines(StateLines(st, num));
    UnlinesConcat(StateLines(st, num), foreign);
    if foreign != [] { JoinIsUnlines(foreign); }
  }

  /** Cutting distributes over a text with a cut in the middle. */
  lemma {:induction false} PiecesSum(a: string, c: char, b: string, cut: char -> bool)
    requires cut(c)
    ensures Pieces(a + [c] + b, cut) == Pieces(a, cut) + Pieces(b, cut)
    decreases |a|
  {
    var s := a + [c] + b;
    if a == "" {
      assert s[1..] == b;
    } else {
      assert s[1..] == a[1..] + [c] + b;
      PiecesSum(a[1..], c, b, cut);
    }
  }

  lemma {:induction false} PiecesWhole(a: string, cut: char -> bool)
    requires forall i :: 0 <= i < |a| ==> !cut(a[i])
    ensures Pieces(a, cut) == [a]
    decreases |a|
  {
    if a != "" {
      PiecesWhole(a[1..], cut);
      assert a == [a[0]] + a[1..];
    }
  }

  function AllPieces(ls: seq<string>, cut: char -> bool): seq<string> {
    if ls == [] then [] else Pieces(ls[0], cut) + AllPieces(ls[1..], cut)
  }

  lemma {:induction false} PiecesOfUnlines(ls: seq<string>, cut: char -> bool)
    requires cut('\n')
    ensures Pieces(Unlines(ls), cut) == AllPieces(ls, cut) + [""]
    decreases |ls|
  {
    if ls != [] {
      PiecesOfUnlines(ls[1..], cut);
      PiecesSum(ls[0], '\n', Unlines(ls[1..]), cut);
      assert Unlines(ls) == ls[0] + ['\n'] + Unlines(ls[1..]);
    }
  }

  lemma {:induction false} AllPiecesConcat(a: seq<string>, b: seq<string>, cut: char -> bool)
    ensures AllPieces(a + b, cut) == AllPieces(a, cut) + AllPieces(b, cut)
    decreases |a|
  {
    if a == [] {
      assert a + b == b;
    } else {
      assert (a + b)[1..] == a[1..] + b;
      AllPiecesConcat(a[1..], b, cut);
    }
  }

  lemma {:induction false} AllPiecesWhole(ls: seq<string>, cut: char -> bool)
    requires forall j :: 0 <= j < |ls| ==> Whole(ls[j], cut)
    ensures AllPieces(ls, cut) == ls
    decreases |ls|
  {
    if ls != [] {
      AllPiecesWhole(ls[1..], cut);
      PiecesWhole(ls[0], cut);
    }
  }

  predicate Whole(s: string, cut: char -> bool) {
    forall i :: 0 <= i < |s| ==> !cut(s[i])
  }

  // ---------------------------------------------------------------- reading back what was written

  /** A value that can stand after `KEY=` and be read back: not empty, trimmed, on one line. */
  predicate Storable(v: string) {
    v != "" && Whole(v, IsTerminator) && !IsSpace(v[0]) && !IsSpace(v[|v| - 1])
  }

  /** Printed numbers are storable and read back as themselves. */
  ghost predicate Faithful(num: NumCodec) {
    forall n: int :: Storable(num.Show(n)) && num.Read(num.Show(n)) == Some(n)
  }

  /** A state of the resolver: its tokens were minted or read.  A line of blanks reads as an empty
      outgoing token. */
  predicate StorableState(st: Persisted) {
    && st.token.Some? && Storable(st.token.value)
    && (st.previous.Some? && st.previous.value != "" ==> Storable(st.previous.value))
  }

  lemma {:induction false} FirstValueConcat(a: seq<string>, b: seq<string>, k: Key)
    ensures FirstValue(a + b, k) == if FirstValue(a, k).Some? then FirstValue(a, k) else FirstValue(b, k)
    decreases |a|
  {
    if a == [] {
      assert a + b == b;
    } else {
      assert (a + b)[1..] == a[1..] + b;
      FirstValueConcat(a[1..], b, k);
    }
  }

  lemma KeyNames(k: Key)
    ensures forall i :: 0 <= i < |NameOf(k)| ==> NameOf(k)[i] != '=' && !IsSpace(NameOf(k)[i])
  {
  }

  lemma KeyLengths(k: Key, l: Key)
    ensures |NameOf(k)| == |NameOf(l)| <==> k == l
  {
  }

  lemma AssignmentStarts(k: Key, l: Key, v: string)
    ensures StartsWith(Assignment(k, v), Prefix(l)) <==> k == l
  {
    KeyNames(k);
    KeyNames(l);
    KeyLengths(k, l);
    var line, p := Assignment(k, v), Prefix(l);
    assert line[|NameOf(k)|] == '=' && p[|NameOf(l)|] == '=';
    if k == l {
      assert line[..|p|] == p;
    }
    if StartsWith(line, p) {
      assert forall i :: 0 <= i < |p| ==> p[i] == line[i];
      assert forall i :: 0 <= i < |NameOf(k)| ==> line[i] == NameOf(k)[i];
      assert forall i :: 0 <= i < |NameOf(l)| ==> p[i] == NameOf(l)[i];
      assert |NameOf(k)| <= |NameOf(l)|;
      assert |NameOf(l)| <= |NameOf(k)|;
    }
  }

  lemma OneAssignment(k: Key, l: Key, v: string)
    ensures FirstValue([Assignment(k, v)], l) == if k == l && v != "" then Some(v) else None
  {
    AssignmentStarts(k, l, v);
    assert Assignment(k, v)[|Prefix(k)|..] == v;
    assert [Assignment(k, v)][1..] == [];
  }

  /** What a reader finds of the state under key `k`: an empty value is not matched. */
  function ValueOf(st: Persisted, num: NumCodec, k: Key): Option<string> {
    match k
    case TokenKey => st.token
    case IssuedKey => if st.issued.Some? then Some(num.Show(st.issued.value)) else None
    case PreviousKey => if st.previous == Some("") then None else st.previous
    case ExpiresKey =>
      if st.previous.Some? && st.previousExpires.Some? then Some(num.Show(st.previousExpires.value)) else None
  }

  lemma StateLinesRead(st: Persisted, num: NumCodec, k: Key)
    requires StorableState(st) && Faithful(num)
    ensures FirstValue(StateLines(st, num), k) == ValueOf(st, num, k)
  {
    var a := [Assignment(TokenKey, st.token.value)];
    var b := if st.issued.Some? then [Assignment(IssuedKey, num.Show(st.issued.value))] else [];
    var c := if st.previous.Some? then [Assignment(PreviousKey, st.previous.value)] else [];
    var d := if st.previous.Some? && st.previousExpires.Some?
             then [Assignment(ExpiresKey, num.Show(st.previousExpires.value))] else [];
    assert StateLines(st, num) == a + b + (c + d);
    OneAssignment(TokenKey, k, st.token.value);
    if st.issued.Some? { OneAssignment(IssuedKey, k, num.Show(st.issued.value)); }
    if st.previous.Some? { OneAssignment(PreviousKey, k, st.previous.value); }
    if st.previousExpires.Some? { OneAssignment(ExpiresKey, k, num.Show(st.previousExpires.value)); }
    FirstValueConcat(a, b, k);
    FirstValueConcat(a + b, c + d, k);
    FirstValueConcat(c, d, k);
  }

  lemma AssignmentWhole(k: Key, v: string)
    requires Whole(v, IsTerminator)
    ensures Whole(Assignment(k, v), IsTerminator)
  {
    KeyNames(k);
  }

  lemma StateLinesWhole(st: Persisted, num: NumCodec)
    requires StorableState(st) && Faithful(num)
    ensures forall j :: 0 <= j < |StateLines(st, num)| ==> Whole(StateLines(st, num)[j], IsTerminator)
  {
    AssignmentWhole(TokenKey, st.token.value);
    if st.issued.Some? { AssignmentWhole(IssuedKey, num.Show(st.issued.value)); }
    if st.previous.Some? { AssignmentWhole(PreviousKey, st.previous.value); }
    if st.previousExpires.Some? { AssignmentWhole(ExpiresKey, num.Show(st.previousExpires.value)); }
  }

  /** What the operator's lines assign to key `k` behind a lone CR, U+2028 or U+2029: these end a line for
      the reader, though not for the rewriting. */
  function Shadow(foreign: seq<string>, k: Key): Option<string> {
    FirstValue(AllPieces(foreign, IsTerminator), k)
  }

  lemma WrittenReads(foreign: seq<string>, st: Persisted, num: NumCodec, k: Key)
    requires StorableState(st) && Faithful(num)
    ensures FirstValue(Pieces(Written(foreign, st, num), IsTerminator), k) ==
      if ValueOf(st, num, k).Some? then ValueOf(st, num, k) else Shadow(foreign, k)
  {
    var lines := StateLines(st, num);
    var f := AllPieces(foreign, IsTerminator);
    WrittenIsUnlines(foreign, st, num);
    PiecesOfUnlines(lines + foreign, IsTerminator);
    AllPiecesConcat(lines, foreign, IsTerminator);
    StateLinesWhole(st, num);
    AllPiecesWhole(lines, IsTerminator);
    StateLinesRead(st, num, k);
    FirstValueConcat(lines, f, k);
    FirstValueConcat(lines + f, [""], k);
    EmptyReads(k);
  }

  lemma EmptyReads(k: Key)
    ensures FirstValue([""], k) == None
  {
    assert [""][1..] == [];
  }

  lemma StorableTrims(v: string)
    requires Storable(v)
    ensures Trim(v) == v
  {
  }

  function ShadowText(foreign: seq<string>, k: Key): Option<string> {
    match Shadow(foreign, k)
    case None => None
    case Some(v) => Some(Trim(v))
  }

  function ShadowNum(foreign: seq<string>, k: Key, num: NumCodec): Option<int> {
    match Shadow(foreign, k)
    case None => None
    case Some(v) => num.Read(Trim(v))
  }

  /** A written state reads back as itself exactly when no operator line hides an assignment to a key that
      the state leaves out, an expiry comes with an outgoing token (alone it is not written), and that
      token is not empty (it is written, but not read). */
  lemma PersistedReadsBack(foreign: seq<string>, st: Persisted, num: NumCodec)
    requires StorableState(st) && Faithful(num)
    ensures ParsePersisted(Written(foreign, st, num), num) == st <==>
      && (st.issued == None ==> ShadowNum(foreign, IssuedKey, num) == None)
      && (st.previous == None || st.previous == Some("") ==> ShadowText(foreign, PreviousKey) == st.previous)
      && (st.previous == None || st.previousExpires == None ==>
            ShadowNum(foreign, ExpiresKey, num) == st.previousExpires)
  {
    WrittenReads(foreign, st, num, TokenKey);
    WrittenReads(foreign, st, num, IssuedKey);
    WrittenReads(foreign, st, num, PreviousKey);
    WrittenReads(foreign, st, num, ExpiresKey);
    StorableTrims(st.token.value);
    if st.issued.Some? { StorableTrims(num.Show(st.issued.value)); }
    if st.previous.Some? && st.previous.value != "" { StorableTrims(st.previous.value); }
    if st.previousExpires.Some? { StorableTrims(num.Show(st.previousExpires.value)); }
  }

  /** In particular it does when the operator's lines hold no lone CR, U+2028 or U+2029. */
  lemma {:induction false} PlainLinesShadowNothing(foreign: seq<string>, k: Key)
    requires forall j :: 0 <= j < |foreign| ==> Whole(foreign[j], IsTerminator) && !Managed(foreign[j])
    ensures Shadow(foreign, k) == None
    decreases |foreign|
  {
    if foreign != [] {
      PlainLinesShadowNothing(foreign[1..], k);
      PiecesWhole(foreign[0], IsTerminator);
      FirstValueConcat([foreign[0]], AllPieces(foreign[1..], IsTerminator), k);
      assert !StartsWith(foreign[0], Prefix(k));
      assert [foreign[0]][1..] == [];
    }
  }

  lemma HiddenIsOneLine(head: string, v: string)
    requires Storable(v) && Whole(head, IsTerminator)
    ensures var line := head + ['\r'] + Assignment(PreviousKey, v); SplitLines(line) == [line]
  {
    var line := head + ['\r'] + Assignment(PreviousKey, v);
    AssignmentWhole(PreviousKey, v);
    PiecesWhole(line, IsNewline);
  }

  lemma HiddenIsForeign(head: string, v: string)
    requires Storable(v) && Whole(head, IsTerminator) && !Blank(head) && !Managed(head)
    ensures var line := head + ['\r'] + Assignment(PreviousKey, v); ForeignLines(line) == [line]
  {
    var line := head + ['\r'] + Assignment(PreviousKey, v);
    HiddenIsOneLine(head, v);
    StillForeign(head, ['\r'] + Assignment(PreviousKey, v));
    assert line == head + (['\r'] + Assignment(PreviousKey, v));
    KeptAll([line]);
  }

  /** Otherwise it need not: a lone CR in an operator line hides an assignment, which survives the
      rewriting and is read as the outgoing token. */
  lemma HiddenAssignmentIsRead(head: string, v: string, st: Persisted, num: NumCodec)
    requires StorableState(st) && Faithful(num) && st.previous == None
    requires Storable(v) && Whole(head, IsTerminator) && !Blank(head) && !Managed(head)
    ensures var line := head + ['\r'] + Assignment(PreviousKey, v);
      && ForeignLines(line) == [line]
      && ParsePersisted(Written([line], st, num), num).previous == Some(v)
  {
    var line := head + ['\r'] + Assignment(PreviousKey, v);
    HiddenIsForeign(head, v);
    AssignmentWhole(PreviousKey, v);
    PiecesSum(head, '\r', Assignment(PreviousKey, v), IsTerminator);
    PiecesWhole(head, IsTerminator);
    PiecesWhole(Assignment(PreviousKey, v), IsTerminator);
    assert AllPieces([line], IsTerminator) == [head] + [Assignment(PreviousKey, v)];
    FirstValueConcat([head], [Assignment(PreviousKey, v)], PreviousKey);
    OneAssignment(PreviousKey, PreviousKey, v);
    assert !StartsWith(head, Prefix(PreviousKey));
    assert [head][1..] == [];
    WrittenReads([line], st, num, PreviousKey);
    StorableTrims(v);
  }

  /** A line keeps being the operator's whatever follows a terminator in it. */
  lemma StillForeign(head: string, tail: string)
    requires Whole(head, IsTerminator) && !Blank(head) && !Managed(head) && tail != "" && IsTerminator(tail[0])
    ensures !Blank(head + tail) && !Managed(head + tail)
  {
    var line := head + tail;
    var i :| 0 <= i < |head| && !IsSpace(head[i]);
    assert line[i] == head[i];
    forall k: Key ensures !StartsWith(line, Prefix(k)) {
      KeyNames(k);
      var p := Prefix(k);
      assert !StartsWith(head, p);
      if |p| <= |head| {
        assert line[..|p|] == head[..|p|];
      } else if |p| <= |line| {
        assert line[|head|] == tail[0] && line[..|p|][|head|] == tail[0];
        assert p[|head|] == if |head| < |NameOf(k)| then NameOf(k)[|head|] else '=';
      }
    }
  }

  // ---------------------------------------------------------------- the operator's lines

  /** A line the rewriting keeps. */
  predicate Foreign(line: string) {
    !Blank(line) && !Managed(line)
  }

  lemma {:induction false} KeptConcat(a: seq<string>, b: seq<string>)
    ensures Kept(a + b) == Kept(a) + Kept(b)
    decreases |a|
  {
    if a == [] {
      assert a + b == b;
    } else {
      assert (a + b)[1..] == a[1..] + b;
      KeptConcat(a[1..], b);
    }
  }

  lemma {:induction false} KeptAll(ls: seq<string>)
    requires forall j :: 0 <= j < |ls| ==> Foreign(ls[j])
    ensures Kept(ls) == ls
    decreases |ls|
  {
    if ls != [] {
      KeptAll(ls[1..]);
      assert Foreign(ls[0]);
    }
  }

  lemma {:induction false} KeptNone(ls: seq<string>)
    requires forall j :: 0 <= j < |ls| ==> !Foreign(ls[j])
    ensures Kept(ls) == []
    decreases |ls|
  {
    if ls != [] {
      KeptNone(ls[1..]);
      assert !Foreign(ls[0]);
    }
  }

  lemma {:induction false} KeptAreForeign(ls: seq<string>)
    requires forall j :: 0 <= j < |ls| ==> Whole(ls[j], IsNewline)
    ensures forall j :: 0 <= j < |Kept(ls)| ==> Foreign(Kept(ls)[j]) && Whole(Kept(ls)[j], IsNewline)
    decreases |ls|
  {
    if ls != [] {
      KeptAreForeign(ls[1..]);
      assert Whole(ls[0], IsNewline);
    }
  }

  lemma {:induction false} PiecesAreWhole(s: string, cut: char -> bool)
    ensures forall j :: 0 <= j < |Pieces(s, cut)| ==> Whole(Pieces(s, cut)[j], cut)
    decreases |s|
  {
    if s != "" {
      PiecesAreWhole(s[1..], cut);
      var rest := Pieces(s[1..], cut);
      assert Whole(rest[0], cut);
    }
  }

  lemma ForeignLinesAreForeign(content: string)
    ensures forall j :: 0 <= j < |ForeignLines(content)| ==>
      Foreign(ForeignLines(content)[j]) && Whole(ForeignLines(content)[j], IsNewline)
  {
    PiecesAreWhole(content, IsNewline);
    var ls := Pieces(content, IsNewline);
    forall j | 0 <= j < |SplitLines(content)| ensures Whole(SplitLines(content)[j], IsNewline) {
      assert Whole(ls[j], IsNewline);
    }
    KeptAreForeign(SplitLines(content));
  }

  lemma StrippedStaysForeign(line: string)
    requires Foreign(line)
    ensures Foreign(StripCr(line))
  {
    var t := StripCr(line);
    var i :| 0 <= i < |line| && !IsSpace(line[i]);
    assert t[i] == line[i];
    forall k: Key ensures !StartsWith(t, Prefix(k)) {
      assert !StartsWith(line, Prefix(k));
      assert |Prefix(k)| <= |t| ==> t[..|Prefix(k)|] == line[..|Prefix(k)|];
    }
  }

  lemma StateLinesDropped(st: Persisted, num: NumCodec)
    requires StorableState(st) && Faithful(num)
    ensures Kept(StripEach(StateLines(st, num))) == []
  {
    var lines := StateLines(st, num);
    StateLinesWhole(st, num);
    forall j | 0 <= j < |lines| ensures !Foreign(StripEach(lines)[j]) {
      assert Whole(lines[j], IsTerminator);
      assert lines[j] != "" ==> !IsTerminator(lines[j][|lines[j]| - 1]);
      assert StripCr(lines[j]) == lines[j];
      StateLineManaged(st, num, j);
    }
    KeptNone(StripEach(lines));
  }

  lemma StateLineManaged(st: Persisted, num: NumCodec, j: nat)
    requires st.token.Some? && j < |StateLines(st, num)|
    ensures Managed(StateLines(st, num)[j])
  {
    AssignmentStarts(TokenKey, TokenKey, st.token.value);
    if st.issued.Some? { AssignmentStarts(IssuedKey, IssuedKey, num.Show(st.issued.value)); }
    if st.previous.Some? { AssignmentStarts(PreviousKey, PreviousKey, st.previous.value); }
    if st.previousExpires.Some? { AssignmentStarts(ExpiresKey, ExpiresKey, num.Show(st.previousExpires.value)); }
  }

  lemma WrittenSplits(foreign: seq<string>, st: Persisted, num: NumCodec)
    requires StorableState(st) && Faithful(num)
    requires forall j :: 0 <= j < |foreign| ==> Whole(foreign[j], IsNewline)
    ensures SplitLines(Written(foreign, st, num)) == StripEach(StateLines(st, num)) + StripEach(foreign) + [""]
  {
    var lines := StateLines(st, num);
    var all := lines + foreign;
    StateLinesWhole(st, num);
    WrittenIsUnlines(foreign, st, num);
    PiecesOfUnlines(all, IsNewline);
    forall j | 0 <= j < |all| ensures Whole(all[j], IsNewline) {
      if j < |lines| { assert Whole(lines[j], IsTerminator); }
    }
    AllPiecesWhole(all, IsNewline);
    assert (all + [""])[..|all|] == all;
    assert SplitLines(Unlines(all)) == StripEach(all) + [""];
    StripEachConcat(lines, foreign);
  }

  lemma StripEachConcat(a: seq<string>, b: seq<string>)
    ensures StripEach(a + b) == StripEach(a) + StripEach(b)
  {
  }

  lemma StrippedKept(foreign: seq<string>)
    requires forall j :: 0 <= j < |foreign| ==> Foreign(foreign[j])
    ensures Kept(StripEach(foreign)) == StripEach(foreign)
  {
    forall j | 0 <= j < |foreign| ensures Foreign(StripEach(foreign)[j]) {
      StrippedStaysForeign(foreign[j]);
    }
    KeptAll(StripEach(foreign));
  }

  lemma KeptMiddle(a: seq<string>, b: seq<string>)
    requires Kept(a) == [] && Kept(b) == b
    ensures Kept(a + b + [""]) == b
  {
    KeptConcat(a + b, [""]);
    KeptConcat(a, b);
    KeptNone([""]);
  }

  /** A rewrite keeps every operator line, in order, exactly once, less one CR at its end; so the lines are
      untouched exactly when none of them ends in a CR. */
  lemma OperatorLinesSurvive(content: string, st: Persisted, num: NumCodec)
    requires StorableState(st) && Faithful(num)
    ensures ForeignLines(Written(ForeignLines(content), st, num)) == StripEach(ForeignLines(content))
    ensures ForeignLines(Written(ForeignLines(content), st, num)) == ForeignLines(content) <==>
      forall j :: 0 <= j < |ForeignLines(content)| ==> !EndsInCr(ForeignLines(content)[j])
  {
    var foreign, lines := ForeignLines(content), StateLines(st, num);
    ForeignLinesAreForeign(content);
    WrittenSplits(foreign, st, num);
    StateLinesDropped(st, num);
    StrippedKept(foreign);
    KeptMiddle(StripEach(lines), StripEach(foreign));
    StripEachSame(foreign);
  }

  lemma NothingForeign()
    ensures ForeignLines("") == [] && StripEach([]) == []
  {
    assert SplitLines("") == [""];
    KeptNone([""]);
  }

  /** Such lines exist: a line that was closed by CR CR LF is kept with one CR, and the next rewrite takes
      that one too. */
  lemma CrLineShrinks(head: string, st: Persisted, num: NumCodec)
    requires Foreign(head) && Whole(head, IsTerminator) && StorableState(st) && Faithful(num)
    ensures ForeignLines(head + "\r\r\n") == [head + "\r"]
    ensures ForeignLines(Written([head + "\r"], st, num)) == [head]
  {
    var line := head + "\r\r";
    assert head + "\r\r\n" == line + ['\n'] + "";
    PiecesSum(line, '\n', "", IsNewline);
    PiecesWhole(line, IsNewline);
    assert Pieces(head + "\r\r\n", IsNewline) == [line] + [""];
    assert StripCr(line) == head + "\r" && StripEach([line]) == [head + "\r"];
    assert SplitLines(head + "\r\r\n") == [head + "\r"] + [""];
    StillForeign(head, "\r");
    KeptAll([head + "\r"]);
    KeptConcat([head + "\r"], [""]);
    KeptNone([""]);
    OperatorLinesSurvive(head + "\r\r\n", st, num);
    assert StripEach([head + "\r"]) == [head];
  }

  /** The file after it was rewritten with one state after the other. */
  function Rewritten(content: string, sts: seq<Persisted>, num: NumCodec): string
    requires forall i :: 0 <= i < |sts| ==> sts[i].token.Some?
  {
    if sts == [] then content
    else Written(ForeignLines(Rewritten(content, sts[..|sts| - 1], num)), sts[|sts| - 1], num)
  }

  function StripTimes(line: string, n: nat): string {
    if n == 0 then line else StripCr(StripTimes(line, n - 1))
  }

  /** Any number of rewrites keeps every operator line, in order, exactly once; each rewrite takes one CR
      from its end as long as it has one. */
  lemma {:induction false} RewritesKeepLines(content: string, sts: seq<Persisted>, num: NumCodec)
    requires Faithful(num) && forall i :: 0 <= i < |sts| ==> sts[i].token.Some? && StorableState(sts[i])
    ensures var before, after := ForeignLines(content), ForeignLines(Rewritten(content, sts, num));
      |after| == |before| && forall j :: 0 <= j < |before| ==> after[j] == StripTimes(before[j], |sts|)
    decreases |sts|
  {
    if sts != [] {
      var n := |sts| - 1;
      RewritesKeepLines(content, sts[..n], num);
      OperatorLinesSurvive(Rewritten(content, sts[..n], num), sts[n], num);
    }
  }

  lemma StripEachSame(ls: seq<string>)
    ensures StripEach(ls) == ls <==> forall j :: 0 <= j < |ls| ==> !EndsInCr(ls[j])
  {
    forall j | 0 <= j < |ls| ensures EndsInCr(ls[j]) <==> StripEach(ls)[j] != ls[j] {
      assert |StripEach(ls)[j]| == if EndsInCr(ls[j]) then |ls[j]| - 1 else |ls[j]|;
    }
  }

  // ---------------------------------------------------------------- a number format that qualifies

  function DigitOf(d: nat): char
    requires d < 10
  {
    (('0' as int) + d) as char
  }

  function ShowNat(n: nat): string {
    if n < 10 then [DigitOf(n)] else ShowNat(n / 10) + [DigitOf(n % 10)]
  }

  predicate IsDigit(c: char) {
    '0' <= c <= '9'
  }

  /** The value of a string of digits, or nothing. */
  function ReadNat(s: string): Option<nat> {
    if s == "" then None
    else
      var last := s[|s| - 1];
      if !IsDigit(last) then None
      else if |s| == 1 then Some((last as int) - ('0' as int))
      else match ReadNat(s[..|s| - 1])
        case None => None
        case Some(n) => Some(n * 10 + ((last as int) - ('0' as int)))
  }

  function ShowDecimal(n: int): string {
    if n < 0 then "-" + ShowNat(-n) else ShowNat(n)
  }

  function ReadDecimal(s: string): Option<int> {
    if s != "" && s[0] == '-' then Negated(ReadNat(s[1..])) else ReadNat(s)
  }

  function Negated(n: Option<int>): Option<int> {
    if n.Some? then Some(-n.value) else None
  }

  lemma {:induction false} NatReadsBack(n: nat)
    ensures ReadNat(ShowNat(n)) == Some(n)
    ensures ShowNat(n) != "" && forall i :: 0 <= i < |ShowNat(n)| ==> IsDigit(ShowNat(n)[i])
    decreases n
  {
    if n >= 10 {
      NatReadsBack(n / 10);
      assert ShowNat(n)[..|ShowNat(n)| - 1] == ShowNat(n / 10);
    }
  }

  lemma DecimalIsFaithful()
    ensures Faithful(NumCodec(ShowDecimal, ReadDecimal))
  {
    var num := NumCodec(ShowDecimal, ReadDecimal);
    forall n: int ensures Storable(num.Show(n)) && num.Read(num.Show(n)) == Some(n) {
      var s := ShowDecimal(n);
      NatReadsBack(if n < 0 then -n else n);
      if n < 0 {
        assert s[1..] == ShowNat(-n);
      }
      assert forall i :: 0 <= i < |s| ==> IsDigit(s[i]) || s[i] == '-';
    }
  }
}
