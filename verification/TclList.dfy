/**
 The TCL list tokenizer of src/cache/device-type-cache.ts, and its inverse: how
 the CCU prints a list of labels as one string.
 */
module TclList {

  // ---------------------------------------------------------------- the tokenizer

  /** Scans from `j` at brace depth `depth` until the depth is 0 or the input ends. */
  function ScanBraces(s: string, j: nat, depth: nat): (r: (nat, nat))
    requires j <= |s|
    ensures j <= r.0 <= |s|
    ensures depth > 0 && j < |s| ==> j < r.0
    decreases |s| - j
  {
    if j == |s| || depth == 0 then (j, depth)
    else ScanBraces(s, j + 1, if s[j] == '{' then depth + 1 else if s[j] == '}' then depth - 1 else depth)
  }

  function BareEnd(s: string, j: nat): (e: nat)
    requires j <= |s|
    ensures j <= e <= |s| && (j < |s| && s[j] != ' ' ==> j < e)
    decreases |s| - j
  {
    if j == |s| || s[j] == ' ' then j else BareEnd(s, j + 1)
  }

  /** The items of a list, one after the other. */
  function Tokens(s: string): seq<string>
    decreases |s|
  {
    if s == "" then []
    else if s[0] == ' ' then Tokens(s[1..])
    else if s[0] == '{' then
      var (j, depth) := ScanBraces(s, 1, 1);
      [s[1..if depth == 0 && j > 1 then j - 1 else j]] + Tokens(s[j..])
    else
      var j := BareEnd(s, 0);
      [s[..j]] + Tokens(s[j..])
  }

  lemma ScanBracesShift(s: string, i: nat, j: nat, depth: nat)
    requires i <= j <= |s|
    ensures ScanBraces(s[i..], j - i, depth) == (ScanBraces(s, j, depth).0 - i, ScanBraces(s, j, depth).1)
    decreases |s| - j
  {
    if j < |s| && depth > 0 {
      assert s[i..][j - i] == s[j];
      ScanBracesShift(s, i, j + 1, if s[j] == '{' then depth + 1 else if s[j] == '}' then depth - 1 else depth);
    }
  }

  lemma BareEndShift(s: string, i: nat, j: nat)
    requires i <= j <= |s|
    ensures BareEnd(s[i..], j - i) == BareEnd(s, j) - i
    decreases |s| - j
  {
    if j < |s| {
      assert s[i..][j - i] == s[j];
      if s[j] != ' ' { BareEndShift(s, i, j + 1); }
    }
  }

  lemma BracedItem(t: string, j: nat, depth: nat, item: string, rest: string)
    requires t != "" && t[0] == '{' && ScanBraces(t, 1, 1) == (j, depth)
    requires item == t[1..if depth == 0 && j > 1 then j - 1 else j] && rest == t[j..]
    ensures Tokens(t) == [item] + Tokens(rest)
  {
  }

  lemma TailSlices(s: string, i: nat, a: nat, b: nat, c: nat)
    requires i <= a <= b <= c <= |s|
    ensures s[i..][a - i..b - i] == s[a..b] && s[i..][c - i..] == s[c..]
  {
  }

  lemma BracedFrom(s: string, i: nat, j: nat, depth: nat, e: nat)
    requires i < |s| && s[i] == '{' && ScanBraces(s, i + 1, 1) == (j, depth)
    requires e == if depth == 0 && j > i + 1 then j - 1 else j
    ensures Tokens(s[i..]) == [s[i + 1..e]] + Tokens(s[j..])
  {
    ScanBracesShift(s, i, i + 1, 1);
    TailSlices(s, i, i + 1, e, j);
    BracedItem(s[i..], j - i, depth, s[i + 1..e], s[j..]);
  }

  /** What the tokenizer does at position `i`, in positions of the whole input. */
  lemma TokensFrom(s: string, i: nat)
    requires i < |s|
    ensures s[i] == ' ' ==> Tokens(s[i..]) == Tokens(s[i + 1..])
    ensures s[i] == '{' ==>
      var (j, depth) := ScanBraces(s, i + 1, 1);
      Tokens(s[i..]) == [s[i + 1..if depth == 0 && j > i + 1 then j - 1 else j]] + Tokens(s[j..])
    ensures s[i] != ' ' && s[i] != '{' ==>
      var j := BareEnd(s, i);
      Tokens(s[i..]) == [s[i..j]] + Tokens(s[j..])
  {
    var t := s[i..];
    if s[i] == ' ' {
      assert t[1..] == s[i + 1..];
    } else if s[i] == '{' {
      var (j, depth) := ScanBraces(s, i + 1, 1);
      BracedFrom(s, i, j, depth, if depth == 0 && j > i + 1 then j - 1 else j);
    } else {
      BareEndShift(s, i, i);
      var j := BareEnd(s, i);
      assert t[..j - i] == s[i..j] && t[j - i..] == s[j..];
    }
  }

  method ParseBraced(input: string, i: nat) returns (item: string, j: nat)
    requires i < |input| && input[i] == '{'
    ensures i < j <= |input|
    ensures Tokens(input[i..]) == [item] + Tokens(input[j..])
  {
    var depth := 1;
    j := i + 1;
    var start := j;
    while j < |input| && depth > 0
      invariant start <= j <= |input| && 0 <= depth && (depth == 0 ==> start < j)
      invariant ScanBraces(input, j, depth) == ScanBraces(input, i + 1, 1)
      decreases |input| - j
    {
      if input[j] == '{' {
        depth := depth + 1;
      } else if input[j] == '}' {
        depth := depth - 1;
      }
      j := j + 1;
    }
    item := input[start..if depth == 0 then j - 1 else j];
    TokensFrom(input, i);
  }

  method ParseBare(input: string, i: nat) returns (item: string, j: nat)
    requires i < |input| && input[i] != ' ' && input[i] != '{'
    ensures i < j <= |input|
    ensures Tokens(input[i..]) == [item] + Tokens(input[j..])
  {
    j := i;
    while j < |input| && input[j] != ' '
      invariant i <= j <= |input|
      invariant BareEnd(input, j) == BareEnd(input, i)
    {
      j := j + 1;
    }
    item := input[i..j];
    TokensFrom(input, i);
  }

  method SkipSpaces(input: string, i: nat) returns (j: nat)
    requires i <= |input|
    ensures i <= j <= |input| && (j < |input| ==> input[j] != ' ')
    ensures Tokens(input[j..]) == Tokens(input[i..])
  {
    j := i;
    while j < |input| && input[j] == ' '
      invariant i <= j <= |input|
      invariant Tokens(input[j..]) == Tokens(input[i..])
    {
      TokensFrom(input, j);
      j := j + 1;
    }
  }

  method ParseItem(input: string, i: nat) returns (item: string, j: nat)
    requires i < |input| && input[i] != ' '
    ensures i < j <= |input|
    ensures Tokens(input[i..]) == [item] + Tokens(input[j..])
  {
    if input[i] == '{' {
      item, j := ParseBraced(input, i);
    } else {
      item, j := ParseBare(input, i);
    }
  }

  /** One more item moves from what is left to what was read. */
  lemma ItemRead(items: seq<string>, item: string, rest: seq<string>)
    ensures (items + [item]) + rest == items + ([item] + rest)
  {
  }

  method ParseTclList(input: string) returns (items: seq<string>)
    ensures items == Tokens(input)
  {
    items := [];
    var i: nat := 0;
    assert input[0..] == input;
    while i < |input|
      invariant i <= |input|
      invariant items + Tokens(input[i..]) == Tokens(input)
      decreases |input| - i
    {
      var start := SkipSpaces(input, i);
      if start >= |input| {
        i := start;
        break;
      }
      var item, j := ParseItem(input, start);
      ItemRead(items, item, Tokens(input[j..]));
      items := items + [item];
      i := j;
    }
    assert input[i..] == "";
  }

  // ---------------------------------------------------------------- printing a list

  predicate NeedsBraces(w: string) {
    w == "" || ' ' in w || w[0] == '{'
  }

  function PrintLabel(w: string): string {
    if NeedsBraces(w) then "{" + w + "}" else w
  }

  function PrintList(ws: seq<string>): string {
    if ws == [] then ""
    else if |ws| == 1 then PrintLabel(ws[0])
    else PrintLabel(ws[0]) + " " + PrintList(ws[1..])
  }

  /** Opening minus closing braces. */
  function Nesting(s: string): int {
    if s == "" then 0
    else Nesting(s[..|s| - 1]) + (if s[|s| - 1] == '{' then 1 else if s[|s| - 1] == '}' then -1 else 0)
  }

  ghost predicate Balanced(w: string) {
    Nesting(w) == 0 && forall k :: 0 <= k <= |w| ==> Nesting(w[..k]) >= 0
  }

  /** The scan stops at the first position where the depth is back at 0, and nowhere before. */
  lemma {:induction false} ScanStops(s: string, j: nat, depth: nat)
    requires 0 < j <= |s| && depth as int == 1 + Nesting(s[1..j])
    requires forall k :: 1 <= k < j ==> 1 + Nesting(s[1..k]) > 0
    ensures var (e, d) := ScanBraces(s, j, depth);
      && d as int == 1 + Nesting(s[1..e])
      && (forall k :: 1 <= k < e ==> 1 + Nesting(s[1..k]) > 0)
      && (e < |s| ==> d == 0)
    decreases |s| - j
  {
    if j < |s| && depth > 0 {
      var next := if s[j] == '{' then depth + 1 else if s[j] == '}' then depth - 1 else depth;
      assert s[1..j + 1][..j - 1] == s[1..j] && s[1..j + 1][j - 1] == s[j];
      ScanStops(s, j + 1, next);
    }
  }

  lemma PrefixSlice(a: string, b: string, i: nat, j: nat)
    requires i <= j <= |a|
    ensures (a + b)[i..j] == a[i..j]
  {
  }

  lemma WrappedSlice(w: string, rest: string, k: nat)
    requires 1 <= k < |w| + 2
    ensures ("{" + w + "}" + rest)[1..k] == w[..k - 1]
  {
    var a := "{" + w;
    assert "{" + w + "}" + rest == a + ("}" + rest);
    PrefixSlice(a, "}" + rest, 1, k);
    assert a[1..k] == w[..k - 1];
  }

  lemma SuffixSlice(a: string, b: string)
    ensures (a + b)[|a|..] == b
  {
  }

  lemma NestingClosed(w: string)
    ensures Nesting(w + "}") == Nesting(w) - 1
  {
    assert (w + "}")[..|w|] == w;
  }

  lemma WrappedEnd(w: string, rest: string)
    ensures var s, n := "{" + w + "}" + rest, |w| + 2;
      s[n..] == rest && s[1..n] == w + "}"
  {
    var a := "{" + w + "}";
    SuffixSlice(a, rest);
    PrefixSlice(a, rest, 1, |a|);
  }

  lemma WrappedShape(w: string, rest: string)
    ensures var s, n := "{" + w + "}" + rest, |w| + 2;
      && (forall k :: 1 <= k < n ==> s[1..k] == w[..k - 1])
      && s[n..] == rest && Nesting(s[1..n]) == Nesting(w) - 1
  {
    WrappedEnd(w, rest);
    NestingClosed(w);
    forall k | 1 <= k < |w| + 2 ensures ("{" + w + "}" + rest)[1..k] == w[..k - 1] {
      WrappedSlice(w, rest, k);
    }
  }

  /** The closing brace of the label is where the scan stops exactly when the braces balance. */
  lemma ScanEndsAtLabel(w: string, rest: string)
    ensures var s, n := "{" + w + "}" + rest, |w| + 2;
      var (e, d) := ScanBraces(s, 1, 1);
      Balanced(w) <==> e == n && d == 0
  {
    var s, n := "{" + w + "}" + rest, |w| + 2;
    var (e, d) := ScanBraces(s, 1, 1);
    ScanStops(s, 1, 1);
    WrappedShape(w, rest);
    if Balanced(w) {
      assert forall k :: 1 <= k < n ==> Nesting(s[1..k]) >= 0;
      assert e >= n;
    }
    if e == n && d == 0 {
      assert forall k :: 0 <= k <= |w| ==> w[..k] == s[1..k + 1];
      assert w[..|w|] == w;
    }
  }

  /** A label in braces is read back, whatever follows, exactly when its braces balance. */
  lemma WrappedLabel(w: string, rest: string)
    ensures Tokens("{" + w + "}" + rest) != []
    ensures Tokens("{" + w + "}" + rest)[0] == w <==> Balanced(w)
    ensures Balanced(w) ==> Tokens("{" + w + "}" + rest) == [w] + Tokens(rest)
  {
    var s := "{" + w + "}" + rest;
    var (e, d) := ScanBraces(s, 1, 1);
    ScanStops(s, 1, 1);
    ScanEndsAtLabel(w, rest);
    WrappedShape(w, rest);
    assert w[..|w|] == w;
    if s[1..if d == 0 && e > 1 then e - 1 else e] == w {
      assert e == |w| + 2 && d == 0;
    }
  }

  lemma {:induction false} BareEndAt(b: string, rest: string, j: nat)
    requires ' ' !in b && j <= |b| && (rest == "" || rest[0] == ' ')
    ensures BareEnd(b + rest, j) == |b|
    decreases |b| - j
  {
    if j < |b| {
      assert (b + rest)[j] == b[j];
      BareEndAt(b, rest, j + 1);
    }
  }

  lemma BareLabel(b: string, rest: string)
    requires !NeedsBraces(b) && (rest == "" || rest[0] == ' ')
    ensures Tokens(b + rest) == [b] + Tokens(rest)
  {
    var s := b + rest;
    BareEndAt(b, rest, 0);
    assert s[0] == b[0];
    assert s[..|b|] == b && s[|b|..] == rest;
  }

  /** Printing a list and tokenizing it gives the list back exactly when every label that has to be put
      in braces has balanced braces itself. */
  lemma {:induction false} PrintedListReadsBack(ws: seq<string>)
    ensures Tokens(PrintList(ws)) == ws <==> forall w :: w in ws && NeedsBraces(w) ==> Balanced(w)
    decreases |ws|
  {
    if ws != [] {
      var w := ws[0];
      var rest := if |ws| == 1 then "" else " " + PrintList(ws[1..]);
      var s := PrintLabel(w) + rest;
      assert s == PrintList(ws);
      PrintedListReadsBack(ws[1..]);
      if |ws| > 1 { assert rest[1..] == PrintList(ws[1..]); }
      assert Tokens(rest) == Tokens(PrintList(ws[1..]));
      assert forall v :: v in ws <==> v == w || v in ws[1..];
      if NeedsBraces(w) {
        WrappedLabel(w, rest);
        if Tokens(s) == ws { assert Balanced(w); }
      } else {
        BareLabel(w, rest);
      }
      if NeedsBraces(w) ==> Balanced(w) {
        assert Tokens(s) == [w] + Tokens(rest);
        assert Tokens(s)[1..] == Tokens(rest);
        assert ws == [w] + ws[1..];
      }
    }
  }

  // ---------------------------------------------------------------- other inputs

  /** Spaces before an item are skipped, however many. */
  lemma {:induction false} SpacesAreSkipped(spaces: string, s: string)
    requires forall k :: 0 <= k < |spaces| ==> spaces[k] == ' '
    ensures Tokens(spaces + s) == Tokens(s)
    decreases |spaces|
  {
    if spaces == "" {
      assert spaces + s == s;
    } else {
      SpacesAreSkipped(spaces[1..], s);
      assert (spaces + s)[1..] == spaces[1..] + s;
    }
  }

  lemma UnclosedScan(w: string)
    requires forall k :: 0 <= k <= |w| ==> Nesting(w[..k]) >= 0
    ensures var (e, d) := ScanBraces("{" + w, 1, 1); e == |w| + 1 && d > 0
  {
    var s := "{" + w;
    var (e, d) := ScanBraces(s, 1, 1);
    ScanStops(s, 1, 1);
    assert s[1..e] == w[..e - 1];
  }

  /** An item whose brace is never closed takes the rest of the input. */
  lemma UnclosedTakesRest(w: string)
    requires forall k :: 0 <= k <= |w| ==> Nesting(w[..k]) >= 0
    ensures Tokens("{" + w) == [w]
  {
    var s := "{" + w;
    UnclosedScan(w);
    WholeSlice(w);
    BracedItem(s, |s|, ScanBraces(s, 1, 1).1, w, "");
  }

  lemma WholeSlice(w: string)
    ensures var s := "{" + w; s[1..|s|] == w && s[|s|..] == ""
  {
  }
}
