/**
 Printing user strings into HomeMatic Script and JSON, and what reads them back:
 `escapeHmScript` (src/utils.ts), the `Replace` chain of WRITE_CHANNEL_DPS and
 the address filter of get_values (src/tools/read.ts).
 */
module Escape {
  import opened Wrappers

  /** `s.replace(/c/g, with)`. */
  function ReplaceAll(s: string, c: char, with: string): string {
    if s == "" then "" else (if s[0] == c then with else [s[0]]) + ReplaceAll(s[1..], c, with)
  }

  function EscapeHmScript(input: string): string {
    ReplaceAll(ReplaceAll(ReplaceAll(ReplaceAll(input, '\\', "\\\\"), '"', "\\\""), '\n', "\\n"), '\r', "\\r")
  }

  /** The five `Replace` steps that run on the CCU. */
  function EscapeJson(value: string): string {
    ReplaceAll(ReplaceAll(ReplaceAll(ReplaceAll(ReplaceAll(value,
      '\\', "\\\\"), '"', "\\\""), '\t', "\\t"), '\r', "\\r"), '\n', "\\n")
  }

  // ---------------------------------------------------------------- chains are per-character maps

  function HmChar(c: char): string {
    match c
    case '\\' => "\\\\"
    case '"' => "\\\""
    case '\n' => "\\n"
    case '\r' => "\\r"
    case _ => [c]
  }

  function JsonChar(c: char): string {
    if c == '\t' then "\\t" else HmChar(c)
  }

  function PerChar(s: string, f: char -> string): string {
    if s == "" then "" else f(s[0]) + PerChar(s[1..], f)
  }

  lemma {:induction false} ReplaceAllConcat(a: string, b: string, c: char, with: string)
    ensures ReplaceAll(a + b, c, with) == ReplaceAll(a, c, with) + ReplaceAll(b, c, with)
    decreases |a|
  {
    if a == "" {
      assert a + b == b;
    } else {
      assert (a + b)[1..] == a[1..] + b;
      ReplaceAllConcat(a[1..], b, c, with);
    }
  }

  lemma ReplaceOne(a: char, c: char, with: string)
    ensures ReplaceAll([a], c, with) == if a == c then with else [a]
  {
    assert [a][1..] == "";
  }

  lemma ReplaceTwo(a: char, b: char, c: char, with: string)
    requires a != c && b != c
    ensures ReplaceAll([a, b], c, with) == [a, b]
  {
    assert [a, b][1..] == [b];
    ReplaceOne(b, c, with);
  }

  /** Later steps leave alone what earlier steps wrote. */
  lemma EscapeHmOne(c: char)
    ensures EscapeHmScript([c]) == HmChar(c)
  {
    ReplaceOne(c, '\\', "\\\\");
    if c == '\\' {
      ReplaceTwo('\\', '\\', '"', "\\\"");
      ReplaceTwo('\\', '\\', '\n', "\\n");
      ReplaceTwo('\\', '\\', '\r', "\\r");
    } else {
      ReplaceOne(c, '"', "\\\"");
      if c == '"' {
        ReplaceTwo('\\', '"', '\n', "\\n");
        ReplaceTwo('\\', '"', '\r', "\\r");
      } else {
        ReplaceOne(c, '\n', "\\n");
        if c == '\n' {
          ReplaceTwo('\\', 'n', '\r', "\\r");
        } else {
          ReplaceOne(c, '\r', "\\r");
        }
      }
    }
  }

  lemma EscapeJsonOne(c: char)
    ensures EscapeJson([c]) == JsonChar(c)
  {
    ReplaceOne(c, '\\', "\\\\");
    if c == '\\' {
      ReplaceTwo('\\', '\\', '"', "\\\"");
      ReplaceTwo('\\', '\\', '\t', "\\t");
      ReplaceTwo('\\', '\\', '\r', "\\r");
      ReplaceTwo('\\', '\\', '\n', "\\n");
    } else {
      ReplaceOne(c, '"', "\\\"");
      if c == '"' {
        ReplaceTwo('\\', '"', '\t', "\\t");
        ReplaceTwo('\\', '"', '\r', "\\r");
        ReplaceTwo('\\', '"', '\n', "\\n");
      } else {
        ReplaceOne(c, '\t', "\\t");
        if c == '\t' {
          ReplaceTwo('\\', 't', '\r', "\\r");
          ReplaceTwo('\\', 't', '\n', "\\n");
        } else {
          ReplaceOne(c, '\r', "\\r");
          if c == '\r' {
            ReplaceTwo('\\', 'r', '\n', "\\n");
          } else {
            ReplaceOne(c, '\n', "\\n");
          }
        }
      }
    }
  }

  lemma EscapeHmConcat(a: string, b: string)
    ensures EscapeHmScript(a + b) == EscapeHmScript(a) + EscapeHmScript(b)
  {
    var a1, b1 := ReplaceAll(a, '\\', "\\\\"), ReplaceAll(b, '\\', "\\\\");
    ReplaceAllConcat(a, b, '\\', "\\\\");
    var a2, b2 := ReplaceAll(a1, '"', "\\\""), ReplaceAll(b1, '"', "\\\"");
    ReplaceAllConcat(a1, b1, '"', "\\\"");
    var a3, b3 := ReplaceAll(a2, '\n', "\\n"), ReplaceAll(b2, '\n', "\\n");
    ReplaceAllConcat(a2, b2, '\n', "\\n");
    ReplaceAllConcat(a3, b3, '\r', "\\r");
  }

  lemma EscapeJsonConcat(a: string, b: string)
    ensures EscapeJson(a + b) == EscapeJson(a) + EscapeJson(b)
  {
    var a1, b1 := ReplaceAll(a, '\\', "\\\\"), ReplaceAll(b, '\\', "\\\\");
    ReplaceAllConcat(a, b, '\\', "\\\\");
    var a2, b2 := ReplaceAll(a1, '"', "\\\""), ReplaceAll(b1, '"', "\\\"");
    ReplaceAllConcat(a1, b1, '"', "\\\"");
    var a3, b3 := ReplaceAll(a2, '\t', "\\t"), ReplaceAll(b2, '\t', "\\t");
    ReplaceAllConcat(a2, b2, '\t', "\\t");
    var a4, b4 := ReplaceAll(a3, '\r', "\\r"), ReplaceAll(b3, '\r', "\\r");
    ReplaceAllConcat(a3, b3, '\r', "\\r");
    ReplaceAllConcat(a4, b4, '\n', "\\n");
  }

  /** The four replacements, one after the other, are one map over the characters. */
  lemma {:induction false} EscapeHmIsPerChar(s: string)
    ensures EscapeHmScript(s) == PerChar(s, HmChar)
    decreases |s|
  {
    if s != "" {
      assert s == [s[0]] + s[1..];
      EscapeHmConcat([s[0]], s[1..]);
      EscapeHmOne(s[0]);
      EscapeHmIsPerChar(s[1..]);
    }
  }

  lemma {:induction false} EscapeJsonIsPerChar(s: string)
    ensures EscapeJson(s) == PerChar(s, JsonChar)
    decreases |s|
  {
    if s != "" {
      assert s == [s[0]] + s[1..];
      EscapeJsonConcat([s[0]], s[1..]);
      EscapeJsonOne(s[0]);
      EscapeJsonIsPerChar(s[1..]);
    }
  }

  // ---------------------------------------------------------------- HomeMatic Script string literals

  /** What a backslash and `c` stand for; before any other character the backslash is kept. */
  function HmEscape(c: char): string {
    match c
    case 'n' => "\n"
    case 'r' => "\r"
    case 't' => "\t"
    case '\\' => "\\"
    case '"' => "\""
    case _ => ['\\', c]
  }

  /** Reads a string literal after its opening quote: its value, and the text after the closing quote. */
  function ScanLiteral(t: string): (r: Option<(string, string)>)
    ensures r.Some? ==> |r.value.1| < |t|
    decreases |t|
  {
    if t == "" then None
    else if t[0] == '"' then Some(("", t[1..]))
    else if t[0] == '\\' then
      if |t| < 2 then None
      else (match ScanLiteral(t[2..])
            case Some((v, rest)) => Some((HmEscape(t[1]) + v, rest))
            case None => None)
    else (match ScanLiteral(t[1..])
          case Some((v, rest)) => Some(([t[0]] + v, rest))
          case None => None)
  }

  /** One printed character is scanned back as itself. */
  lemma ScanOne(c: char, tail: string)
    ensures ScanLiteral(HmChar(c) + tail) ==
      match ScanLiteral(tail) case Some((v, rest)) => Some(([c] + v, rest)) case None => None
  {
    var t := HmChar(c) + tail;
    if |HmChar(c)| == 1 {
      assert t[0] == c && t[1..] == tail;
    } else {
      assert t[0] == '\\' && t[1] == HmChar(c)[1] && t[2..] == tail;
      assert HmEscape(t[1]) == [c];
    }
  }

  lemma PrintedSplits(s: string, rest: string, f: char -> string)
    requires s != ""
    ensures PerChar(s, f) + "\"" + rest == f(s[0]) + (PerChar(s[1..], f) + "\"" + rest)
  {
  }

  lemma {:induction false} EscapedLiteralReadsBack(s: string, rest: string)
    ensures ScanLiteral(EscapeHmScript(s) + "\"" + rest) == Some((s, rest))
    decreases |s|
  {
    EscapeHmIsPerChar(s);
    if s == "" {
      assert (EscapeHmScript(s) + "\"" + rest)[1..] == rest;
    } else {
      EscapedLiteralReadsBack(s[1..], rest);
      EscapeHmIsPerChar(s[1..]);
      PrintedSplits(s, rest, HmChar);
      ScanOne(s[0], PerChar(s[1..], HmChar) + "\"" + rest);
      assert s == [s[0]] + s[1..];
    }
  }

  /** A script cut at its string literals: the code between them, and their values. */
  function Cut(t: string): Option<(seq<string>, seq<string>)>
    decreases |t|
  {
    var q := QuoteAt(t);
    if q == |t| then Some(([t], []))
    else match ScanLiteral(t[q + 1..])
      case None => None
      case Some((v, rest)) =>
        match Cut(rest)
        case None => None
        case Some((code, values)) => Some(([t[..q]] + code, [v] + values))
  }

  function QuoteAt(t: string): (q: nat)
    ensures q <= |t| && (q < |t| ==> t[q] == '"') && '"' !in t[..q]
  {
    if t == "" || t[0] == '"' then 0
    else
      var q := 1 + QuoteAt(t[1..]);
      assert t[..q] == [t[0]] + t[1..][..q - 1];
      q
  }

  lemma CutLiteral(code: string, s: string, rest: string)
    requires '"' !in code
    ensures var t := code + "\"" + EscapeHmScript(s) + "\"" + rest;
      Cut(t) == match Cut(rest) case None => None case Some((c, v)) => Some(([code] + c, [s] + v))
  {
    var t := code + "\"" + EscapeHmScript(s) + "\"" + rest;
    EscapedLiteralReadsBack(s, rest);
    QuoteAfter(code, "\"" + EscapeHmScript(s) + "\"" + rest);
    assert t == code + ("\"" + EscapeHmScript(s) + "\"" + rest);
    assert t[..|code|] == code;
    assert t[|code| + 1..] == EscapeHmScript(s) + "\"" + rest;
  }

  lemma {:induction false} QuoteAfter(code: string, rest: string)
    requires '"' !in code && rest != "" && rest[0] == '"'
    ensures QuoteAt(code + rest) == |code|
    decreases |code|
  {
    if code == "" {
      assert code + rest == rest;
    } else {
      assert (code + rest)[1..] == code[1..] + rest;
      QuoteAfter(code[1..], rest);
    }
  }

  /** A script made of fixed code and of values escaped into string literals between its pieces. */
  function Script(code: seq<string>, values: seq<string>): string
    requires |code| == |values| + 1
  {
    if values == [] then code[0]
    else code[0] + "\"" + EscapeHmScript(values[0]) + "\"" + Script(code[1..], values[1..])
  }

  /** Whatever the values are, such a script has the same code, and its literals read back as the values. */
  lemma {:induction false} ScriptCodeIsFixed(code: seq<string>, values: seq<string>)
    requires |code| == |values| + 1 && forall i :: 0 <= i < |code| ==> '"' !in code[i]
    ensures Cut(Script(code, values)) == Some((code, values))
    decreases |code|
  {
    if values == [] {
      assert QuoteAt(code[0]) == |code[0]|;
      assert code == [code[0]];
    } else {
      ScriptCodeIsFixed(code[1..], values[1..]);
      CutLiteral(code[0], values[0], Script(code[1..], values[1..]));
      assert code == [code[0]] + code[1..] && values == [values[0]] + values[1..];
    }
  }

  // ---------------------------------------------------------------- JSON strings

  function HexDigit(c: char): Option<nat> {
    if '0' <= c <= '9' then Some((c as int) - ('0' as int))
    else if 'a' <= c <= 'f' then Some((c as int) - ('a' as int) + 10)
    else if 'A' <= c <= 'F' then Some((c as int) - ('A' as int) + 10)
    else None
  }

  /** The character that four hexadecimal digits name; one half of a surrogate pair is not a character. */
  function HexChar(h: string): Option<char>
    requires |h| == 4
  {
    match (HexDigit(h[0]), HexDigit(h[1]), HexDigit(h[2]), HexDigit(h[3]))
    case (Some(a), Some(b), Some(c), Some(d)) =>
      var code := ((a * 16 + b) * 16 + c) * 16 + d;
      if code < 0xD800 || 0xE000 <= code < 0x1_0000 then Some(code as char) else None
    case _ => None
  }

  function JsonEscape(c: char): Option<char> {
    match c
    case '"' => Some('"')
    case '\\' => Some('\\')
    case '/' => Some('/')
    case 'b' => Some(8 as char)
    case 'f' => Some(12 as char)
    case 'n' => Some('\n')
    case 'r' => Some('\r')
    case 't' => Some('\t')
    case _ => None
  }

  /** Reads a JSON string after its opening quote (section 7 of RFC 8259); raw control characters are errors. */
  function JsonString(t: string): Option<(string, string)>
    decreases |t|
  {
    if t == "" || t[0] as int < 0x20 then None
    else if t[0] == '"' then Some(("", t[1..]))
    else if t[0] == '\\' then
      if |t| >= 6 && t[1] == 'u' then Prepend(HexChar(t[2..6]), JsonString(t[6..]))
      else if |t| >= 2 then Prepend(JsonEscape(t[1]), JsonString(t[2..]))
      else None
    else Prepend(Some(t[0]), JsonString(t[1..]))
  }

  function Prepend(c: Option<char>, r: Option<(string, string)>): Option<(string, string)> {
    if c.Some? && r.Some? then Some(([c.value] + r.value.0, r.value.1)) else None
  }

  /** A control character the `Replace` chain does not know. */
  predicate OtherControl(c: char) {
    (c as int) < 0x20 && c != '\t' && c != '\r' && c != '\n'
  }

  /** One printed character decodes to itself, unless it is a control character that the chain leaves raw. */
  lemma DecodeOne(c: char, tail: string)
    ensures JsonString(JsonChar(c) + tail) == if OtherControl(c) then None else Prepend(Some(c), JsonString(tail))
  {
    var t := JsonChar(c) + tail;
    if |JsonChar(c)| == 1 {
      assert t[0] == c && t[1..] == tail;
    } else {
      assert t[0] == '\\' && t[1] == JsonChar(c)[1] && t[1] != 'u' && t[2..] == tail;
      assert JsonEscape(t[1]) == Some(c);
    }
  }

  /** What the chain printed between quotes decodes to the value itself, and nothing after the closing
      quote is touched, exactly when tab, CR and LF are its only control characters. */
  lemma {:induction false} EscapedJsonReadsBack(s: string, rest: string)
    ensures JsonString(EscapeJson(s) + "\"" + rest) ==
      if forall c :: c in s ==> !OtherControl(c) then Some((s, rest)) else None
    decreases |s|
  {
    EscapeJsonIsPerChar(s);
    if s == "" {
      assert (EscapeJson(s) + "\"" + rest)[1..] == rest;
    } else {
      EscapedJsonReadsBack(s[1..], rest);
      EscapeJsonIsPerChar(s[1..]);
      PrintedSplits(s, rest, JsonChar);
      DecodeOne(s[0], PerChar(s[1..], JsonChar) + "\"" + rest);
      assert s == [s[0]] + s[1..];
      assert forall c :: c in s <==> c == s[0] || c in s[1..];
    }
  }

  // ---------------------------------------------------------------- the address filter of get_values

  function Join(parts: seq<string>, sep: string): string {
    if parts == [] then ""
    else if |parts| == 1 then parts[0]
    else parts[0] + sep + Join(parts[1..], sep)
  }

  function EscapeEach(addrs: seq<string>): seq<string> {
    if addrs == [] then [] else [EscapeHmScript(addrs[0])] + EscapeEach(addrs[1..])
  }

  /** The literal's source text: escaped addresses between commas, with a comma at either end. */
  function AddrList(addrs: seq<string>): string {
    "," + Join(EscapeEach(addrs), ",") + ","
  }

  /** `haystack.Find(needle) >= 0`. */
  ghost predicate Finds(haystack: string, needle: string) {
    exists i :: FindsAt(haystack, needle, i)
  }

  ghost predicate FindsAt(haystack: string, needle: string, i: int) {
    0 <= i <= |haystack| - |needle| && haystack[i..i + |needle|] == needle
  }

  /** `a` stands at `i` as a whole comma-separated field of `s`. */
  ghost predicate FieldAt(s: string, a: string, i: int) {
    && 0 <= i <= |s| - |a| && s[i..i + |a|] == a
    && (i == 0 || s[i - 1] == ',') && (i + |a| == |s| || s[i + |a|] == ',')
  }

  ghost predicate IsField(s: string, a: string) {
    exists i :: FieldAt(s, a, i)
  }

  lemma NeedleIsField(s: string, a: string, i: int)
    ensures FindsAt("," + s + ",", "," + a + ",", i) <==> FieldAt(s, a, i)
  {
    var h, n := "," + s + ",", "," + a + ",";
    if 0 <= i <= |s| - |a| {
      assert h[i] == if i == 0 then ',' else s[i - 1];
      assert h[i + |a| + 1] == if i + |a| == |s| then ',' else s[i + |a|];
      assert h[i + 1..i + 1 + |a|] == s[i..i + |a|];
      assert h[i..i + |n|] == [h[i]] + h[i + 1..i + 1 + |a|] + [h[i + |a| + 1]];
      if h[i..i + |n|] == n {
        assert h[i..i + |n|][0] == n[0] && h[i..i + |n|][1..|a| + 1] == n[1..|a| + 1] && h[i..i + |n|][|a| + 1] == n[|a| + 1];
        assert n[1..|a| + 1] == a;
      }
    }
  }

  lemma FieldInFirst(x: string, y: string, a: string, i: int)
    requires 0 <= i <= |x| - |a|
    ensures FieldAt(x + "," + y, a, i) <==> FieldAt(x, a, i)
  {
    var s := x + "," + y;
    assert s[|x|] == ',';
    assert s[i..i + |a|] == x[i..i + |a|];
  }

  lemma FieldInSecond(x: string, y: string, a: string, i: int)
    requires 0 <= i
    ensures FieldAt(x + "," + y, a, |x| + 1 + i) <==> FieldAt(y, a, i)
  {
    var s, n := x + "," + y, |x| + 1;
    assert s == (x + ",") + y && s[|x|] == ',';
    assert s[n..] == y;
    if i <= |y| - |a| {
      assert s[n + i..n + i + |a|] == s[n..][i..i + |a|];
    }
  }

  /** A comma-free field of two strings joined by a comma is a field of one of them. */
  lemma FieldOfSum(x: string, y: string, a: string)
    requires ',' !in a
    ensures IsField(x + "," + y, a) <==> IsField(x, a) || IsField(y, a)
  {
    var s := x + "," + y;
    if i :| FieldAt(s, a, i) {
      if i <= |x| {
        assert forall m :: 0 <= m < |a| ==> s[i + m] == a[m] && a[m] in a;
        assert s[|x|] == ',' && i + |a| <= |x|;
        FieldInFirst(x, y, a, i);
      } else {
        FieldInSecond(x, y, a, i - |x| - 1);
      }
    }
    if i :| FieldAt(x, a, i) {
      FieldInFirst(x, y, a, i);
    }
    if i :| FieldAt(y, a, i) {
      FieldInSecond(x, y, a, i);
    }
  }

  lemma {:induction false} FieldOfJoin(addrs: seq<string>, a: string)
    requires addrs != [] && ',' !in a
    ensures IsField(Join(addrs, ","), a) <==> exists b :: b in addrs && IsField(b, a)
    decreases |addrs|
  {
    if |addrs| > 1 {
      FieldOfJoin(addrs[1..], a);
      FieldOfSum(addrs[0], Join(addrs[1..], ","), a);
      assert forall b :: b in addrs <==> b == addrs[0] || b in addrs[1..];
    } else {
      assert addrs == [addrs[0]];
    }
  }

  lemma PlainField(b: string, a: string)
    requires ',' !in b
    ensures IsField(b, a) <==> a == b
  {
    if i :| FieldAt(b, a, i) {
      assert forall m :: 0 <= m < |b| ==> b[m] in b;
      assert b[0..|b|] == b;
    }
    if a == b {
      assert b[0..|b|] == b;
      assert FieldAt(b, a, 0);
    }
  }

  lemma {:induction false} EscapedJoin(addrs: seq<string>)
    ensures Join(EscapeEach(addrs), ",") == EscapeHmScript(Join(addrs, ","))
    decreases |addrs|
  {
    if |addrs| > 1 {
      var rest := Join(addrs[1..], ",");
      EscapedJoin(addrs[1..]);
      EscapeHmConcat(addrs[0], "," + rest);
      EscapeHmConcat(",", rest);
      EscapeHmOne(',');
      assert EscapeEach(addrs)[1..] == EscapeEach(addrs[1..]);
      assert addrs[0] + "," + rest == addrs[0] + ("," + rest);
    } else if |addrs| == 1 {
      assert EscapeEach(addrs) == [EscapeHmScript(addrs[0])];
    }
  }

  /** What the CCU reads between the quotes. */
  lemma AddrListReadsBack(addrs: seq<string>, rest: string)
    ensures ScanLiteral(AddrList(addrs) + "\"" + rest) == Some(("," + Join(addrs, ",") + ",", rest))
  {
    var j := Join(addrs, ",");
    EscapedJoin(addrs);
    EscapeHmConcat("," + j, ",");
    EscapeHmConcat(",", j);
    EscapeHmOne(',');
    assert AddrList(addrs) == EscapeHmScript("," + j + ",");
    EscapedLiteralReadsBack("," + j + ",", rest);
  }

  /** A comma-free channel address is found in the decoded literal exactly when it is a comma-separated
      field of a requested address; so, when no requested address holds a comma, exactly when it was requested. */
  lemma FilterIsExact(addrs: seq<string>, a: string, rest: string)
    requires addrs != [] && ',' !in a
    ensures ScanLiteral(AddrList(addrs) + "\"" + rest).Some?
    ensures var (literal, after) := ScanLiteral(AddrList(addrs) + "\"" + rest).value;
      && after == rest
      && (Finds(literal, "," + a + ",") <==> exists b :: b in addrs && IsField(b, a))
      && ((forall b :: b in addrs ==> ',' !in b) ==> (Finds(literal, "," + a + ",") <==> a in addrs))
  {
    var j := Join(addrs, ",");
    AddrListReadsBack(addrs, rest);
    NeedleFound(j, a);
    FieldOfJoin(addrs, a);
    forall b | b in addrs && ',' !in b ensures IsField(b, a) <==> a == b {
      PlainField(b, a);
    }
  }

  lemma NeedleFound(s: string, a: string)
    ensures Finds("," + s + ",", "," + a + ",") <==> IsField(s, a)
  {
    forall i ensures FindsAt("," + s + ",", "," + a + ",", i) <==> FieldAt(s, a, i) {
      NeedleIsField(s, a, i);
    }
  }
}
