/**
 The token file of src/auth/token.ts line by line: which lines a rewrite keeps and what
 each key reads as, for every text.
 */
module TokenLines {
  import opened Wrappers
  import opened EnvFile

  /** What a line has to begin with to assign to the key. */
  function Literal(k: Key): string {
    match k
    case TokenKey => "MCP_AUTH_TOKEN="
    case IssuedKey => "MCP_AUTH_TOKEN_ISSUED="
    case PreviousKey => "MCP_AUTH_TOKEN_PREVIOUS="
    case ExpiresKey => "MCP_AUTH_TOKEN_PREVIOUS_EXPIRES="
  }

  lemma LiteralIsPrefix(k: Key)
    ensures Prefix(k) == Literal(k)
  {
  }

  // ---------------------------------------------------------------- the lines that are kept

  /** A line of the operator: it is not blank and assigns to none of the four keys. */
  ghost predicate OperatorLine(line: string) {
    && (exists i :: 0 <= i < |line| && !IsSpace(line[i]))
    && !(Literal(TokenKey) <= line) && !(Literal(IssuedKey) <= line)
    && !(Literal(PreviousKey) <= line) && !(Literal(ExpiresKey) <= line)
  }

  lemma KeptLine(line: string)
    ensures Blank(line) || Managed(line) <==> !OperatorLine(line)
  {
    forall k: Key ensures StartsWith(line, Prefix(k)) <==> Literal(k) <= line {
      LiteralIsPrefix(k);
    }
    if Literal(TokenKey) <= line { assert StartsWith(line, Prefix(TokenKey)); }
    if Literal(IssuedKey) <= line { assert StartsWith(line, Prefix(IssuedKey)); }
    if Literal(PreviousKey) <= line { assert StartsWith(line, Prefix(PreviousKey)); }
    if Literal(ExpiresKey) <= line { assert StartsWith(line, Prefix(ExpiresKey)); }
  }

  /** The last line is kept exactly if it is the operator's. */
  lemma LastLineKept(line: string)
    requires '\n' !in line
    ensures ForeignLines(line) == if OperatorLine(line) then [line] else []
  {
    PiecesWhole(line, IsNewline);
    assert SplitLines(line) == [line] + [];
    KeptFirst(line, []);
    KeptLine(line);
  }

  lemma KeptFirst(line: string, rest: seq<string>)
    ensures Kept([line] + rest) == (if Blank(line) || Managed(line) then [] else [line]) + Kept(rest)
  {
    assert ([line] + rest)[1..] == rest;
  }

  /** Any other line is kept exactly if it is the operator's once a CR at its end is dropped, and the lines
      after it are kept or not on their own. */
  lemma LineKept(line: string, rest: string)
    requires '\n' !in line
    ensures ForeignLines(line + "\n" + rest) ==
      (if OperatorLine(StripCr(line)) then [StripCr(line)] else []) + ForeignLines(rest)
  {
    SplitFirst(line, rest);
    KeptFirst(StripCr(line), SplitLines(rest));
    KeptLine(StripCr(line));
  }

  lemma SplitFirst(line: string, rest: string)
    requires '\n' !in line
    ensures SplitLines(line + "\n" + rest) == [StripCr(line)] + SplitLines(rest)
  {
    PiecesSum(line, '\n', rest, IsNewline);
    PiecesWhole(line, IsNewline);
    assert line + "\n" + rest == line + ['\n'] + rest;
    var ls := Pieces(rest, IsNewline);
    assert ([line] + ls)[..|ls|] == [line] + ls[..|ls| - 1];
    assert StripEach([line] + ls[..|ls| - 1]) == [StripCr(line)] + StripEach(ls[..|ls| - 1]);
  }

  /** A CR is dropped from the end of a line, and nothing else. */
  lemma OneCrDropped(line: string)
    ensures StripCr(line + "\r") == line
    ensures (line == "" || line[|line| - 1] != '\r') ==> StripCr(line) == line
  {
  }

  // ---------------------------------------------------------------- the values that are read

  predicate AllSpace(s: string) {
    forall j :: 0 <= j < |s| ==> IsSpace(s[j])
  }

  predicate Surrounds(before: string, v: string, after: string, text: string) {
    text == before + v + after && AllSpace(before) && AllSpace(after)
  }

  /** `v` is `text` without the white space around it. */
  ghost predicate Trimmed(text: string, v: string) {
    && (exists before, after :: Surrounds(before, v, after, text))
    && (v != "" ==> !IsSpace(v[0]) && !IsSpace(v[|v| - 1]))
  }

  lemma {:induction false} TrimStartAt(s: string) returns (i: nat)
    ensures i <= |s| && TrimStart(s) == s[i..] && (forall j :: 0 <= j < i ==> IsSpace(s[j]))
    ensures i < |s| ==> !IsSpace(s[i])
    decreases |s|
  {
    i := 0;
    if s != "" && IsSpace(s[0]) {
      var k := TrimStartAt(s[1..]);
      i := k + 1;
      assert s[1..][k..] == s[i..];
      assert forall j :: 1 <= j < i ==> s[j] == s[1..][j - 1];
    }
  }

  lemma {:induction false} TrimEndAt(s: string) returns (n: nat)
    ensures n <= |s| && TrimEnd(s) == s[..n] && (forall j :: n <= j < |s| ==> IsSpace(s[j]))
    ensures n > 0 ==> !IsSpace(s[n - 1])
    decreases |s|
  {
    n := |s|;
    if s != "" && IsSpace(s[|s| - 1]) {
      n := TrimEndAt(s[..|s| - 1]);
      assert s[..|s| - 1][..n] == s[..n];
    }
  }

  lemma TrimIsTrimmed(s: string)
    ensures Trimmed(s, Trim(s))
  {
    var i := TrimStartAt(s);
    var u := s[i..];
    var n := TrimEndAt(u);
    assert s == s[..i] + u[..n] + u[n..];
    assert Surrounds(s[..i], Trim(s), u[n..], s);
  }

  /** The value that one line gives a key: what follows the literal, if anything does. */
  ghost predicate LineGives(line: string, k: Key, v: string) {
    Literal(k) <= line && |Literal(k)| < |line| && Trimmed(line[|Literal(k)|..], v)
  }

  predicate LineAssigns(line: string, k: Key) {
    Literal(k) <= line && |Literal(k)| < |line|
  }

  lemma FirstOf(line: string, rest: seq<string>, k: Key)
    ensures FirstValue([line] + rest, k) ==
      if LineAssigns(line, k) then Some(line[|Literal(k)|..]) else FirstValue(rest, k)
  {
    LiteralIsPrefix(k);
    assert ([line] + rest)[1..] == rest;
  }

  /** The first line that assigns to a key decides what it reads as, trimmed; later ones are not looked at. */
  lemma LineRead(line: string, c: char, rest: string, k: Key)
    requires IsTerminator(c) && forall i :: 0 <= i < |line| ==> !IsTerminator(line[i])
    ensures !LineAssigns(line, k) ==> ReadKey(line + [c] + rest, k) == ReadKey(rest, k)
    ensures LineAssigns(line, k) ==>
      ReadKey(line + [c] + rest, k).Some? && LineGives(line, k, ReadKey(line + [c] + rest, k).value)
  {
    PiecesSum(line, c, rest, IsTerminator);
    PiecesWhole(line, IsTerminator);
    FirstOf(line, Pieces(rest, IsTerminator), k);
    if LineAssigns(line, k) { TrimIsTrimmed(line[|Literal(k)|..]); }
  }

  lemma LastLineRead(line: string, k: Key)
    requires forall i :: 0 <= i < |line| ==> !IsTerminator(line[i])
    ensures !LineAssigns(line, k) ==> ReadKey(line, k) == None
    ensures LineAssigns(line, k) ==> ReadKey(line, k).Some? && LineGives(line, k, ReadKey(line, k).value)
  {
    PiecesWhole(line, IsTerminator);
    FirstOf(line, [], k);
    assert [line] + [] == [line];
    if LineAssigns(line, k) { TrimIsTrimmed(line[|Literal(k)|..]); }
  }
}
