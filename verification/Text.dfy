/**
 The Python text operations the stores are built on: str.splitlines, "\n".join, str.strip,
 str.split and strict base64 recognition.
 */
module Text {
  import opened Wrappers

  // ---------------------------------------------------------------- lines

  /** The characters str.splitlines treats as a line boundary ("\r\n" counts as one). */
  predicate IsBreak(c: char) {
    || c == '\n' || c == '\r' || c == '\U{000B}' || c == '\U{000C}'
    || '\U{001C}' <= c <= '\U{001E}' || c == '\U{0085}' || c == '\U{2028}' || c == '\U{2029}'
  }

  predicate NoBreak(s: string) {
    forall i | 0 <= i < |s| :: !IsBreak(s[i])
  }

  /** The position of the first line boundary, or the length. */
  function LineEnd(t: string): (k: nat)
    ensures k <= |t| && NoBreak(t[..k]) && (k < |t| ==> IsBreak(t[k]))
  {
    if t == "" || IsBreak(t[0]) then 0
    else
      var k := LineEnd(t[1..]);
      assert t[..k + 1] == [t[0]] + t[1..][..k];
      k + 1
  }

  function BreakLength(t: string, k: nat): (n: nat)
    requires k < |t|
    ensures 1 <= n <= 2 && k + n <= |t|
  {
    if t[k] == '\r' && k + 1 < |t| && t[k + 1] == '\n' then 2 else 1
  }

  function SplitLines(t: string): (lines: seq<string>)
    ensures forall i | 0 <= i < |lines| :: NoBreak(lines[i])
    decreases |t|
  {
    if t == "" then []
    else
      var k := LineEnd(t);
      if k == |t| then assert t[..k] == t; [t] else [t[..k]] + SplitLines(t[k + BreakLength(t, k)..])
  }

  /** "\n".join(lines). */
  function Join(lines: seq<string>): string {
    if |lines| == 0 then "" else if |lines| == 1 then lines[0] else lines[0] + "\n" + Join(lines[1..])
  }

  /** The text written back for a list of lines: joined, with a final newline unless empty. */
  function Render(lines: seq<string>): string {
    if Join(lines) == "" then "" else Join(lines) + "\n"
  }

  lemma LineEndIs(s: string, u: string)
    requires NoBreak(s) && (u == "" || IsBreak(u[0]))
    ensures LineEnd(s + u) == |s|
  {
    if s == "" {
      assert s + u == u;
    } else {
      assert (s + u)[1..] == s[1..] + u;
      LineEndIs(s[1..], u);
    }
  }

  /** Reading back what was joined gives the lines, except that a single empty line vanishes. */
  lemma {:induction false} SplitRender(lines: seq<string>)
    requires forall i | 0 <= i < |lines| :: NoBreak(lines[i])
    ensures SplitLines(Render(lines)) == if lines == [""] then [] else lines
  {
    if |lines| == 0 {
    } else if |lines| == 1 {
      if lines[0] != "" {
        SplitLineThen(lines[0], "");
        assert lines[0] + "\n" + "" == Render(lines);
      }
    } else {
      SplitRender(lines[1..]);
      if Join(lines[1..]) == "" {
        JoinEmpty(lines[1..]);
        assert lines == [lines[0], ""];
        SplitLineThen(lines[0], "\n");
        SplitLineThen("", "");
        assert Render(lines) == lines[0] + "\n" + "\n";
        assert "" + "\n" + "" == "\n";
      } else {
        SplitLineThen(lines[0], Render(lines[1..]));
        assert Render(lines) == lines[0] + "\n" + Render(lines[1..]);
      }
    }
  }

  lemma JoinEmpty(lines: seq<string>)
    requires Join(lines) == "" && lines != []
    ensures lines == [""]
  {
  }

  /** One line boundary. */
  predicate BreakText(b: string) {
    (|b| == 1 && IsBreak(b[0])) || b == "\r\n"
  }

  lemma SplitUnit(a: string, b: string, rest: string)
    requires NoBreak(a) && BreakText(b) && !(b == "\r" && rest != "" && rest[0] == '\n')
    ensures SplitLines(a + b + rest) == [a] + SplitLines(rest)
  {
    var t := a + b + rest;
    assert t == a + (b + rest);
    LineEndIs(a, b + rest);
    assert t[..|a|] == a && t[|a|] == b[0];
    assert t[|a| + |b|..] == rest;
  }

  lemma SplitLineThen(line: string, rest: string)
    requires NoBreak(line)
    ensures SplitLines(line + "\n" + rest) == [line] + SplitLines(rest)
  {
    SplitUnit(line, "\n", rest);
  }

  /** A text is one unbroken line, or a line, a boundary and the rest. */
  lemma Decompose(t: string) returns (a: string, b: string, rest: string)
    requires LineEnd(t) < |t|
    ensures t == a + b + rest && NoBreak(a) && BreakText(b)
    ensures !(b == "\r" && rest != "" && rest[0] == '\n')
    ensures rest != "" ==> rest[|rest| - 1] == t[|t| - 1]
    ensures rest == "" ==> b[|b| - 1] == t[|t| - 1]
  {
    hide LineEnd, SplitLines;
    var k := LineEnd(t);
    var n := BreakLength(t, k);
    a, b, rest := t[..k], t[k..k + n], t[k + n..];
    assert b == if n == 2 then "\r\n" else [t[k]];
    assert rest != "" ==> rest[0] == t[k + n];
    assert t == a + b + rest;
  }

  lemma Unbroken(t: string)
    requires LineEnd(t) == |t|
    ensures NoBreak(t) && SplitLines(t) == if t == "" then [] else [t]
  {
    assert t[..|t|] == t;
  }

  /** A text that ends a line cleanly, so that what follows starts a new one. */
  predicate EndsWithNewline(t: string) {
    t != "" && t[|t| - 1] == '\n'
  }

  predicate EndsWithBreak(t: string) {
    t != "" && IsBreak(t[|t| - 1])
  }

  /** Appending to a text that is empty or ends with "\n" appends its lines. */
  lemma {:induction false} SplitAppend(t: string, u: string)
    requires t == "" || EndsWithNewline(t)
    ensures SplitLines(t + u) == SplitLines(t) + SplitLines(u)
    decreases |t|
  {
    hide SplitLines, LineEnd;
    if t == "" {
      Unbroken(t);
      assert t + u == u;
    } else if LineEnd(t) == |t| {
      Unbroken(t);
    } else {
      var a, b, rest := Decompose(t);
      SplitUnit(a, b, rest);
      assert t + u == a + b + (rest + u);
      SplitUnit(a, b, rest + u);
      SplitAppend(rest, u);
    }
  }

  /** Does "\n" after this text make an empty line of its own? */
  predicate Closed(t: string) {
    t == "" || (EndsWithBreak(t) && t[|t| - 1] != '\r')
  }

  /**
   Inserting "\n" between two texts: it ends an unfinished line, completes a lone "\r", and
   otherwise adds one empty line.
   */
  lemma {:induction false} SplitAcrossNewline(t: string, u: string)
    ensures SplitLines(t + "\n" + u) == SplitLines(t) + (if Closed(t) then [""] else []) + SplitLines(u)
    decreases |t|
  {
    hide SplitLines, LineEnd;
    if LineEnd(t) == |t| {
      Unbroken(t);
      SplitLineThen(t, u);
    } else {
      var a, b, rest := Decompose(t);
      SplitUnit(a, b, rest);
      if rest == "" && b == "\r" {
        Unbroken(rest);
        assert t + "\n" + u == a + "\r\n" + u;
        SplitUnit(a, "\r\n", u);
      } else {
        assert t + "\n" + u == a + b + (rest + "\n" + u);
        SplitUnit(a, b, rest + "\n" + u);
        SplitAcrossNewline(rest, u);
        assert Closed(t) == Closed(rest);
      }
    }
  }

  /** The text uses "\n" and nothing else to separate lines. */
  predicate OnlyNewlines(t: string) {
    forall i | 0 <= i < |t| && IsBreak(t[i]) :: t[i] == '\n'
  }

  /** Reading in text mode: every line ending becomes "\n". */
  function Universal(t: string): string
    decreases |t|
  {
    if t == "" then ""
    else if t[0] == '\r' then "\n" + Universal(t[if |t| > 1 && t[1] == '\n' then 2 else 1..])
    else [t[0]] + Universal(t[1..])
  }

  lemma {:induction false} UniversalPlain(t: string)
    requires '\r' !in t
    ensures Universal(t) == t
  {
    if t != "" {
      UniversalPlain(t[1..]);
    }
  }

  predicate IsAscii(s: string) {
    forall i | 0 <= i < |s| :: s[i] < '\U{0080}'
  }

  function WithFinalNewline(t: string): string {
    if t == "" || EndsWithNewline(t) then t else t + "\n"
  }

  /** For "\n"-separated text, splitting and rendering only adds a missing final newline. */
  lemma {:induction false} RenderSplit(t: string)
    requires OnlyNewlines(t) && t != "\n"
    ensures Render(SplitLines(t)) == WithFinalNewline(t)
    decreases |t|
  {
    hide SplitLines, LineEnd, Render, WithFinalNewline;
    if LineEnd(t) == |t| {
      RenderUnbroken(t);
    } else {
      var a, b, rest := Decompose(t);
      OnlyNewlinesParts(t, a, b, rest);
      SplitUnit(a, b, rest);
      if rest != "" && rest != "\n" {
        RenderSplit(rest);
      }
      RenderLine(a, rest);
    }
  }

  lemma OnlyNewlinesParts(t: string, a: string, b: string, rest: string)
    requires OnlyNewlines(t) && t == a + b + rest && BreakText(b)
    ensures b == "\n" && OnlyNewlines(rest)
  {
    assert t[|a|] == b[0];
    assert forall i | 0 <= i < |rest| :: rest[i] == t[|a| + |b| + i];
  }

  lemma RenderUnbroken(t: string)
    requires LineEnd(t) == |t|
    ensures Render(SplitLines(t)) == WithFinalNewline(t)
  {
    Unbroken(t);
    JoinOne(t);
    assert t != "" ==> !IsBreak(t[|t| - 1]);
  }

  lemma RenderLine(a: string, rest: string)
    requires NoBreak(a) && !(a == "" && rest == "")
    requires rest != "" && rest != "\n" ==> Render(SplitLines(rest)) == WithFinalNewline(rest)
    ensures Render([a] + SplitLines(rest)) == WithFinalNewline(a + "\n" + rest)
  {
    hide SplitLines, LineEnd, Join, WithFinalNewline;
    RenderCons(a, SplitLines(rest));
    FinalNewlineOfRest(a, rest);
    SplitNonEmpty(rest);
    if rest == "" {
      JoinOne(a);
      assert [a] + SplitLines(rest) == [a];
    } else if rest == "\n" {
      SplitLoneNewline();
      FinalNewlineOfRest("", "");
    } else {
      JoinOne("");
      FinalNewlineNonEmpty(rest);
    }
  }

  lemma SplitLoneNewline()
    ensures SplitLines("\n") == [""]
  {
    SplitLineThen("", "");
    assert "" + "\n" + "" == "\n";
  }

  lemma FinalNewlineNonEmpty(t: string)
    ensures t != "" ==> WithFinalNewline(t) != ""
    ensures WithFinalNewline("\n") == "\n"
  {
  }

  lemma FinalNewlineOfRest(a: string, rest: string)
    ensures WithFinalNewline(a + "\n" + rest) == a + "\n" + WithFinalNewline(rest)
    ensures WithFinalNewline("") == "" && WithFinalNewline("\n") == "\n"
    ensures a + "\n" + "" == a + "\n" && a + "\n" + "\n" == a + "\n\n"
  {
    var t := a + "\n" + rest;
    assert t[|t| - 1] == if rest == "" then '\n' else rest[|rest| - 1];
    assert t + "\n" == a + "\n" + (rest + "\n");
    assert a + "\n\n" == a + "\n" + "\n";
  }

  lemma JoinOne(line: string)
    ensures Join([line]) == line && Join([]) == ""
  {
  }

  lemma SplitNonEmpty(t: string)
    ensures t == "" <==> SplitLines(t) == []
  {
  }

  lemma RenderCons(a: string, lines: seq<string>)
    ensures lines != [] ==> Join([a] + lines) == a + "\n" + Join(lines)
    ensures lines != [] && lines != [""] ==> Render([a] + lines) == a + "\n" + Render(lines)
    ensures lines == [""] ==> Render([a] + lines) == a + "\n\n"
  {
    assert ([a] + lines)[1..] == lines;
    if lines != [] && Join(lines) == "" {
      JoinEmpty(lines);
    }
  }

  /** Rendered text contains no boundary other than "\n". */
  lemma {:induction false} RenderOnlyNewlines(lines: seq<string>)
    requires forall i | 0 <= i < |lines| :: NoBreak(lines[i])
    ensures OnlyNewlines(Join(lines)) && OnlyNewlines(Render(lines))
  {
    if |lines| > 1 {
      RenderOnlyNewlines(lines[1..]);
    }
  }

  // ---------------------------------------------------------------- words

  /** str.isspace on one character. */
  predicate IsSpace(c: char) {
    || '\U{0009}' <= c <= '\r' || '\U{001C}' <= c <= ' ' || c == '\U{0085}' || c == '\U{00A0}'
    || c == '\U{1680}' || '\U{2000}' <= c <= '\U{200A}' || c == '\U{2028}' || c == '\U{2029}'
    || c == '\U{202F}' || c == '\U{205F}' || c == '\U{3000}'
  }

  predicate NoSpace(s: string) {
    forall i | 0 <= i < |s| :: !IsSpace(s[i])
  }

  function Strip(t: string): (r: string)
    ensures r == "" || (!IsSpace(r[0]) && !IsSpace(r[|r| - 1]))
  {
    if t == "" then ""
    else if IsSpace(t[0]) then Strip(t[1..])
    else if IsSpace(t[|t| - 1]) then Strip(t[..|t| - 1])
    else t
  }

  lemma StripTwice(t: string)
    ensures Strip(Strip(t)) == Strip(t)
  {
  }

  function WordEnd(t: string): (k: nat)
    ensures k <= |t| && NoSpace(t[..k]) && (k < |t| ==> IsSpace(t[k]))
  {
    if t == "" || IsSpace(t[0]) then 0
    else
      var k := WordEnd(t[1..]);
      assert t[..k + 1] == [t[0]] + t[1..][..k];
      k + 1
  }

  /** str.split() without arguments. */
  function Words(t: string): (words: seq<string>)
    ensures forall i | 0 <= i < |words| :: words[i] != "" && NoSpace(words[i])
    decreases |t|
  {
    if t == "" then []
    else if IsSpace(t[0]) then Words(t[1..])
    else
      var k := WordEnd(t);
      assert k > 0;
      [t[..k]] + Words(t[k..])
  }

  lemma WordEndIs(w: string, rest: string)
    requires NoSpace(w) && (rest == "" || IsSpace(rest[0]))
    ensures WordEnd(w + rest) == |w|
  {
    if w == "" {
      assert w + rest == rest;
    } else {
      assert (w + rest)[1..] == w[1..] + rest;
      WordEndIs(w[1..], rest);
    }
  }

  lemma WordsOne(w: string)
    requires w != "" && NoSpace(w)
    ensures Words(w) == [w]
  {
    assert w + "" == w;
    WordEndIs(w, "");
    assert w[..|w|] == w && w[|w|..] == "";
  }

  /** A word ends at any white space. */
  lemma WordsSeparated(w: string, c: char, rest: string)
    requires w != "" && NoSpace(w) && IsSpace(c)
    ensures Words(w + [c] + rest) == [w] + Words(rest)
  {
    var t := w + [c] + rest;
    assert t == w + ([c] + rest);
    WordEndIs(w, [c] + rest);
    assert t[..|w|] == w;
    assert t[|w|..] == [c] + rest;
    assert ([c] + rest)[1..] == rest;
  }

  lemma WordsSpaced(w: string, rest: string)
    requires w != "" && NoSpace(w)
    ensures Words(w + " " + rest) == [w] + Words(rest)
  {
    WordsSeparated(w, ' ', rest);
  }

  /** Three words written with single spaces are read back as those words. */
  lemma ThreeWords(a: string, b: string, c: string)
    requires a != "" && NoSpace(a) && b != "" && NoSpace(b) && c != "" && NoSpace(c)
    ensures Words(a + " " + b + " " + c) == [a, b, c]
  {
    hide Words;
    assert a + " " + b + " " + c == a + " " + (b + " " + c);
    WordsSpaced(a, b + " " + c);
    WordsSpaced(b, c);
    WordsOne(c);
  }

  /** Such a line needs no stripping and is one line. */
  lemma ThreeWordsAreALine(a: string, b: string, c: string)
    requires a != "" && NoSpace(a) && NoSpace(b) && c != "" && NoSpace(c)
    ensures Strip(a + " " + b + " " + c) == a + " " + b + " " + c
    ensures NoBreak(a + " " + b + " " + c)
  {
    var t := a + " " + b + " " + c;
    assert t[0] == a[0] && t[|t| - 1] == c[|c| - 1];
    NoBreakConcat(a, " ");
    NoBreakConcat(a + " ", b);
    NoBreakConcat(a + " " + b, " ");
    NoBreakConcat(a + " " + b + " ", c);
  }

  lemma NoBreakConcat(a: string, b: string)
    requires NoBreak(a) && (NoBreak(b) || NoSpace(b))
    ensures NoBreak(a + b)
  {
  }

  predicate StartsWith(s: string, prefix: string) {
    |prefix| <= |s| && s[..|prefix|] == prefix
  }

  // ---------------------------------------------------------------- base64

  predicate IsBase64Char(c: char) {
    'A' <= c <= 'Z' || 'a' <= c <= 'z' || '0' <= c <= '9' || c == '+' || c == '/'
  }

  function Padding(s: string): (p: nat)
    ensures p <= |s| && forall i | |s| - p <= i < |s| :: s[i] == '='
  {
    if |s| >= 2 && s[|s| - 1] == '=' && s[|s| - 2] == '=' then 2
    else if |s| >= 1 && s[|s| - 1] == '=' then 1
    else 0
  }

  /** base64.b64decode(s, validate=True) succeeds: whole groups of four, at most two of them padding. */
  predicate IsBase64(s: string) {
    |s| % 4 == 0 && forall i | 0 <= i < |s| - Padding(s) :: IsBase64Char(s[i])
  }

  lemma Base64NoSpace(s: string)
    requires IsBase64(s)
    ensures NoSpace(s)
  {
    forall i | 0 <= i < |s| ensures !IsSpace(s[i]) {
      assert i < |s| - Padding(s) ==> IsBase64Char(s[i]);
    }
  }

  // ---------------------------------------------------------------- blank lines

  /** [line for line in lines if line.strip()]. */
  function NonBlank(lines: seq<string>): (kept: seq<string>)
    ensures |kept| <= |lines|
    ensures forall i | 0 <= i < |kept| :: Strip(kept[i]) != "" && kept[i] in lines
  {
    if lines == [] then []
    else (if Strip(lines[0]) == "" then [] else [lines[0]]) + NonBlank(lines[1..])
  }

  lemma {:induction false} NonBlankConcat(a: seq<string>, b: seq<string>)
    ensures NonBlank(a + b) == NonBlank(a) + NonBlank(b)
  {
    if a == [] {
      assert a + b == b;
    } else {
      assert (a + b)[1..] == a[1..] + b;
      NonBlankConcat(a[1..], b);
    }
  }

  lemma {:induction false} NonBlankAll(lines: seq<string>)
    requires forall i | 0 <= i < |lines| :: Strip(lines[i]) != ""
    ensures NonBlank(lines) == lines
  {
    if lines != [] {
      NonBlankAll(lines[1..]);
    }
  }

  /** list.index: the first position of an element, or None. */
  function IndexOf(lines: seq<string>, line: string): (i: Option<nat>)
    ensures i.Some? ==> i.value < |lines| && lines[i.value] == line && line !in lines[..i.value]
    ensures i.None? ==> line !in lines
  {
    if lines == [] then None
    else if lines[0] == line then Some(0)
    else
      var rest := IndexOf(lines[1..], line);
      if rest.None? then None
      else
        assert lines[..rest.value + 1] == [lines[0]] + lines[1..][..rest.value];
        Some(rest.value + 1)
  }

  /** del lines[i]. */
  function Without(lines: seq<string>, i: nat): seq<string>
    requires i < |lines|
  {
    lines[..i] + lines[i + 1..]
  }
}
