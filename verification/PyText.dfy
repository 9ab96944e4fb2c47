/** The Python string operations that the file editor relies on. */
module PyText {

  // ---------------------------------------------------------------- characters

  /** The characters `str.splitlines` breaks at. */
  predicate IsBreak(c: char) {
    '\U{0A}' <= c <= '\U{0D}' || '\U{1C}' <= c <= '\U{1E}' || c == '\U{85}' || c == '\U{2028}' || c == '\U{2029}'
  }

  /** The characters `str.strip` removes. */
  predicate IsSpace(c: char) {
    || '\U{09}' <= c <= '\U{0D}' || '\U{1C}' <= c <= '\U{20}' || c == '\U{85}' || c == '\U{A0}' || c == '\U{1680}'
    || '\U{2000}' <= c <= '\U{200A}' || c == '\U{2028}' || c == '\U{2029}' || c == '\U{202F}' || c == '\U{205F}'
    || c == '\U{3000}'
  }

  // ---------------------------------------------------------------- trimming

  function TrimLeft(s: string, p: char -> bool): (r: string)
    ensures |r| <= |s|
  {
    if s != [] && p(s[0]) then TrimLeft(s[1..], p) else s
  }

  lemma {:induction false} TrimLeftSays(s: string, p: char -> bool)
    ensures var r := TrimLeft(s, p);
      && r == s[|s| - |r|..] && (r != [] ==> !p(r[0])) && forall i | 0 <= i < |s| - |r| :: p(s[i])
  {
    if s != [] && p(s[0]) {
      TrimLeftSays(s[1..], p);
    }
  }

  function TrimRight(s: string, p: char -> bool): (r: string)
    ensures |r| <= |s|
  {
    if s != [] && p(s[|s| - 1]) then TrimRight(s[..|s| - 1], p) else s
  }

  lemma {:induction false} TrimRightSays(s: string, p: char -> bool)
    ensures var r := TrimRight(s, p);
      && r <= s && (r != [] ==> !p(r[|r| - 1])) && forall i | |r| <= i < |s| :: p(s[i])
  {
    if s != [] && p(s[|s| - 1]) {
      TrimRightSays(s[..|s| - 1], p);
    }
  }

  function LStrip(s: string): string {
    TrimLeft(s, IsSpace)
  }

  function Strip(s: string): string {
    TrimRight(LStrip(s), IsSpace)
  }

  function StripNewlines(s: string): string {
    TrimRight(s, (c: char) => c == '\n')
  }

  predicate StartsWith(s: string, prefix: string) {
    prefix <= s
  }

  predicate EndsWith(s: string, suffix: string) {
    |suffix| <= |s| && s[|s| - |suffix|..] == suffix
  }

  // ---------------------------------------------------------------- lines

  /** `str.splitlines`: a break ends a line, and a carriage return takes a newline with it. */
  function SplitLines(s: string): (lines: seq<string>)
    ensures lines == [] <==> s == []
    ensures forall i | 0 <= i < |lines| :: NoBreaks(lines[i])
    decreases |s|
  {
    if s == [] then []
    else if s[0] == '\r' && |s| > 1 && s[1] == '\n' then [""] + SplitLines(s[2..])
    else if IsBreak(s[0]) then [""] + SplitLines(s[1..])
    else
      var rest := SplitLines(s[1..]);
      if rest == [] then [s] else [[s[0]] + rest[0]] + rest[1..]
  }

  /** The rows of a text as TOML sees them: only a newline ends one, and the last may be empty. */
  function Rows(s: string): (rows: seq<string>)
    ensures rows != []
  {
    if s == [] then [""]
    else if s[0] == '\n' then [""] + Rows(s[1..])
    else
      var rest := Rows(s[1..]);
      [[s[0]] + rest[0]] + rest[1..]
  }

  /** `sep.join(parts)`. */
  function Join(sep: string, parts: seq<string>): string {
    if parts == [] then "" else if |parts| == 1 then parts[0] else parts[0] + sep + Join(sep, parts[1..])
  }

  /** Every line followed by a newline. */
  function Terminated(lines: seq<string>): string {
    if lines == [] then "" else lines[0] + "\n" + Terminated(lines[1..])
  }

  predicate NoBreaks(s: string) {
    forall i | 0 <= i < |s| :: !IsBreak(s[i])
  }

  predicate AllNoBreaks(lines: seq<string>) {
    forall i | 0 <= i < |lines| :: NoBreaks(lines[i])
  }

  /** Lines that are one TOML row each. */
  predicate OneRowEach(lines: seq<string>) {
    forall i | 0 <= i < |lines| :: '\n' !in lines[i]
  }

  /** A text whose only line breaks are newlines. */
  predicate OnlyNewlines(s: string) {
    forall i | 0 <= i < |s| :: IsBreak(s[i]) ==> s[i] == '\n'
  }

  /** Trailing empty lines, which `rstrip("\n")` takes away. */
  function DropEmpty(lines: seq<string>): (r: seq<string>)
    ensures r <= lines
    ensures r != [] ==> r[|r| - 1] != ""
    ensures forall i | |r| <= i < |lines| :: lines[i] == ""
  {
    if lines != [] && lines[|lines| - 1] == "" then DropEmpty(lines[..|lines| - 1]) else lines
  }

  // ---------------------------------------------------------------- how they fit together

  lemma JoinTerminated(lines: seq<string>)
    requires lines != []
    ensures Join("\n", lines) + "\n" == Terminated(lines)
  {
    if |lines| == 1 {
      assert Terminated(lines[1..]) == "";
    } else {
      JoinTerminated(lines[1..]);
      assert Join("\n", lines) + "\n" == lines[0] + "\n" + (Join("\n", lines[1..]) + "\n");
    }
  }

  lemma {:induction false} TerminatedConcat(a: seq<string>, b: seq<string>)
    ensures Terminated(a + b) == Terminated(a) + Terminated(b)
  {
    if a == [] {
      assert a + b == b;
    } else {
      TerminatedConcat(a[1..], b);
      assert (a + b)[1..] == a[1..] + b;
      var line := a[0] + "\n";
      assert line + (Terminated(a[1..]) + Terminated(b)) == line + Terminated(a[1..]) + Terminated(b);
    }
  }

  lemma {:induction false} SplitFirstLine(line: string, rest: string)
    requires NoBreaks(line)
    ensures SplitLines(line + "\n" + rest) == [line] + SplitLines(rest)
  {
    var s := line + "\n" + rest;
    if line == [] {
      assert s[1..] == rest;
    } else {
      SplitFirstLine(line[1..], rest);
      assert s[1..] == line[1..] + "\n" + rest;
      assert !IsBreak(line[0]) && s[0] == line[0];
      assert [line[0]] + line[1..] == line;
    }
  }

  lemma {:induction false} SplitTerminated(lines: seq<string>)
    requires AllNoBreaks(lines)
    ensures SplitLines(Terminated(lines)) == lines
  {
    if lines != [] {
      SplitFirstLine(lines[0], Terminated(lines[1..]));
      SplitTerminated(lines[1..]);
    }
  }

  lemma {:induction false} TerminatedOnlyNewlines(lines: seq<string>)
    requires AllNoBreaks(lines)
    ensures OnlyNewlines(Terminated(lines))
  {
    if lines != [] {
      TerminatedOnlyNewlines(lines[1..]);
    }
  }

  /** Lines with a character put in front of the first. */
  function Prepend(c: char, lines: seq<string>): seq<string>
    requires lines != []
  {
    [[c] + lines[0]] + lines[1..]
  }

  lemma TerminatedPrepend(c: char, lines: seq<string>)
    requires lines != []
    ensures Terminated(Prepend(c, lines)) == [c] + Terminated(lines)
  {
    assert Prepend(c, lines)[1..] == lines[1..];
    assert [c] + lines[0] + "\n" + Terminated(lines[1..]) == [c] + (lines[0] + "\n" + Terminated(lines[1..]));
  }

  /** A text is its lines, each with a newline, except perhaps the last. */
  lemma {:induction false} TextShape(s: string)
    requires OnlyNewlines(s)
    ensures s == Terminated(SplitLines(s)) || s + "\n" == Terminated(SplitLines(s))
    decreases |s|
  {
    if s != [] {
      TextShape(s[1..]);
      var c, t := s[0], s[1..];
      var rest := SplitLines(t);
      assert s == [c] + t && s + "\n" == [c] + (t + "\n");
      hide IsBreak;
      if c == '\n' {
        assert SplitLines(s) == [""] + rest;
        assert Terminated([""] + rest) == "\n" + Terminated(rest) by {
          assert ([""] + rest)[1..] == rest;
        }
      } else if rest == [] {
        assert Terminated([s]) == s + "\n" + Terminated([]);
      } else {
        assert SplitLines(s) == Prepend(c, rest);
        TerminatedPrepend(c, rest);
      }
    }
  }

  /** TOML's rows are Python's lines, with an empty row after a final newline. */
  lemma {:induction false} RowsAreLines(s: string)
    requires OnlyNewlines(s)
    ensures Rows(s) == SplitLines(s) || Rows(s) == SplitLines(s) + [""]
    decreases |s|
  {
    if s != [] {
      RowsAreLines(s[1..]);
      var rest := SplitLines(s[1..]);
      if s[0] != '\n' {
        if rest == [] {
          assert s == [s[0]];
          assert [s[0]] + "" == s;
        } else if Rows(s[1..]) == rest + [""] {
          assert (rest + [""])[1..] == rest[1..] + [""];
        }
      }
    }
  }

  lemma StripNewlinesStep(s: string)
    ensures StripNewlines(s + "\n") == StripNewlines(s)
  {
    assert (s + "\n")[..|s + "\n"| - 1] == s;
  }

  lemma {:induction false} StripTerminated(lines: seq<string>)
    requires OneRowEach(lines)
    ensures var kept := DropEmpty(lines);
      if kept == [] then StripNewlines(Terminated(lines)) == "" else StripNewlines(Terminated(lines)) + "\n" == Terminated(kept)
    decreases |lines|
  {
    if lines != [] {
      var n := |lines| - 1;
      var front, last := lines[..n], lines[n];
      assert lines == front + [last];
      TerminatedConcat(front, [last]);
      assert Terminated([last]) == last + "\n" by {
        assert Terminated([last]) == last + "\n" + Terminated([]);
      }
      assert Terminated(lines) == (Terminated(front) + last) + "\n";
      StripNewlinesStep(Terminated(front) + last);
      if last == "" {
        assert Terminated(front) + last == Terminated(front);
        StripTerminated(front);
      }
    }
  }

  lemma WholeLinesAreRows(lines: seq<string>)
    requires AllNoBreaks(lines)
    ensures OneRowEach(lines)
  {
    assert IsBreak('\n');
    assert forall i | 0 <= i < |lines| :: NoBreaks(lines[i]);
  }

  /** Stripping a text's newlines drops its empty last lines. */
  lemma StripText(s: string)
    requires OnlyNewlines(s)
    ensures var kept := DropEmpty(SplitLines(s));
      if kept == [] then StripNewlines(s) == "" else StripNewlines(s) + "\n" == Terminated(kept)
  {
    TextShape(s);
    StripNewlinesStep(s);
    WholeLinesAreRows(SplitLines(s));
    StripTerminated(SplitLines(s));
  }
}
