/** How the editor's textual tests on a line agree with what the line means. */
module LineFacts {
  import opened Wrappers
  import opened PyText
  import opened TomlValue
  import opened TomlRoundTrip
  import opened ProfileFile

  // ---------------------------------------------------------------- blanks and spaces

  lemma BlanksAreSpaces(c: char)
    ensures IsBlank(c) ==> IsSpace(c)
  {
  }

  /** Stripping more kinds of space stops at the same place when what is left starts with none. */
  lemma {:induction false} LStripAgrees(line: string)
    ensures var u := TrimLeft(line, IsBlank);
      (u == [] || !IsSpace(u[0])) ==> LStrip(line) == u
    decreases |line|
  {
    if line != [] && IsBlank(line[0]) {
      LStripAgrees(line[1..]);
    }
  }

  lemma {:induction false} RStripAgrees(u: string)
    ensures var h := TrimRight(u, IsBlank);
      (h == [] || !IsSpace(h[|h| - 1])) ==> TrimRight(u, IsSpace) == h
    decreases |u|
  {
    if u != [] && IsBlank(u[|u| - 1]) {
      RStripAgrees(u[..|u| - 1]);
    }
  }

  /** A line that means something starts, blanks aside, with a character that is no space. */
  lemma FirstCharacter(line: string)
    requires Classify(line) != BadLine
    ensures var u := TrimLeft(line, IsBlank);
      && LStrip(line) == u
      && (u == [] <==> Classify(line) == BlankLine)
      && (u != [] ==> (u[0] == '[' <==> Classify(line).HeaderLine?) && !IsSpace(u[0]))
      && (Classify(line).PairLine? <==> u != [] && IsBareChar(u[0]))
  {
    var u := TrimLeft(line, IsBlank);
    LStripAgrees(line);
    hide ParseValue, TrimLeft;
    if u != [] && u[0] != '#' && u[0] != '[' {
      assert Classify(line) == ClassifyPair(u);
      assert ParsePair(u).Some?;
      assert Run(u, IsBareChar) > 0;
    }
  }

  lemma StripKeepsFirst(u: string)
    requires u != [] && !IsSpace(u[0])
    ensures TrimRight(u, IsSpace) != [] && TrimRight(u, IsSpace)[0] == u[0]
  {
    if TrimRight(u, IsSpace) == [] {
      assert false;
    }
  }

  /** What is left of a header line is its header. */
  lemma HeaderStripped(line: string)
    requires Classify(line).HeaderLine?
    ensures ClassifyHeader(Strip(line)) == Classify(line)
  {
    var u := TrimLeft(line, IsBlank);
    FirstCharacter(line);
    hide ClassifyPair, TrimLeft, ClassifyHeader, IsSpace;
    var h := TrimRight(u, IsBlank);
    assert Classify(line) == ClassifyHeader(h);
    HeaderShape(h);
    RStripAgrees(u);
  }

  /** What is left of any other line does not start like one. */
  lemma OthersStripped(line: string)
    requires Classify(line) != BadLine && !Classify(line).HeaderLine?
    ensures Strip(line) == "" <==> Classify(line) == BlankLine
    ensures Strip(line) != "" ==> Strip(line)[0] != '['
  {
    FirstCharacter(line);
    hide Classify, IsBareChar;
    var u := LStrip(line);
    if u != [] {
      StripKeepsFirst(u);
    }
  }

  lemma HeaderShape(h: string)
    requires ClassifyHeader(h) != BadLine
    ensures StartsWith(h, "[") && EndsWith(h, "]") && ClassifyHeader(h).HeaderLine?
    ensures h != [] && !IsSpace(h[|h| - 1])
  {
    hide IsBareKey;
    assert h[..1] == "[" && h[|h| - 1..] == "]";
  }

  /** For a line that means something, the editor's tests say what the line is. */
  lemma EditorAgrees(line: string, name: string)
    requires Classify(line) != BadLine
    ensures Strip(line) == "" <==> Classify(line) == BlankLine
    ensures IsHeaderLike(line) <==> Classify(line).HeaderLine?
    ensures Strip(line) == Header(name) <==> Classify(line) == HeaderLine(Profile(name))
  {
    assert Header(name)[0] == '[';
    hide Classify, ClassifyHeader, Strip, Header;
    if Classify(line).HeaderLine? {
      HeaderStripped(line);
      HeaderShape(Strip(line));
      HeaderOf(Strip(line), name);
    } else {
      OthersStripped(line);
    }
  }

  lemma HeaderOf(h: string, name: string)
    requires ClassifyHeader(h) != BadLine
    ensures ClassifyHeader(h).HeaderLine?
    ensures h == Header(name) <==> ClassifyHeader(h) == HeaderLine(Profile(name))
  {
    var n := |PROFILE_PREFIX|;
    if h == Header(name) {
      assert h[n..|h| - 1] == name;
      assert h != COMMON_HEADER by {
        assert h[1] == 'p' && COMMON_HEADER[1] == 'c';
      }
    }
    if ClassifyHeader(h) == HeaderLine(Profile(name)) {
      assert h == h[..n] + h[n..|h| - 1] + [h[|h| - 1]];
    }
  }

  /** Text that starts and ends with characters that are no space is left alone. */
  lemma NothingToStrip(h: string)
    requires h != [] && !IsSpace(h[0]) && !IsSpace(h[|h| - 1])
    ensures TrimLeft(h, IsBlank) == h && TrimRight(h, IsBlank) == h && LStrip(h) == h && Strip(h) == h
  {
    BlanksAreSpaces(h[0]);
    BlanksAreSpaces(h[|h| - 1]);
    hide IsSpace, IsBlank;
  }

  lemma HeaderText(name: string)
    ensures ClassifyHeader(Header(name)) == if IsBareKey(name) then HeaderLine(Profile(name)) else BadLine
  {
    var h := Header(name);
    var n := |PROFILE_PREFIX|;
    hide IsBareKey;
    assert h[1] == 'p' && COMMON_HEADER[1] == 'c';
    assert h[n..|h| - 1] == name && h[..n] == PROFILE_PREFIX;
  }

  /** A profile's header line means that profile exactly when its name is a bare key. */
  lemma HeaderMeans(name: string)
    ensures Classify(Header(name)) == if IsBareKey(name) then HeaderLine(Profile(name)) else BadLine
    ensures Strip(Header(name)) == Header(name)
  {
    HeaderText(name);
    var h := Header(name);
    assert h != [] && h[0] == '[' && h[|h| - 1] == ']';
    hide ClassifyHeader, Header, IsBareKey, TrimLeft, TrimRight, ClassifyPair;
    NothingToStrip(h);
  }

  // ---------------------------------------------------------------- pairs

  lemma BareStart(line: string)
    requires line != [] && IsBareChar(line[0])
    ensures LStrip(line) == line && Classify(line) == ClassifyPair(line)
  {
    hide ClassifyPair;
    assert TrimLeft(line, IsBlank) == line;
    assert LStrip(line) == line;
  }

  /** A written pair reads as itself. */
  lemma PairMeans(key: string, value: Value)
    requires IsBareKey(key) && Clean(value)
    ensures PairText(key, value).Some? && Classify(PairText(key, value).value) == PairLine(key, value)
    ensures DefinesKey(PairText(key, value).value, key) && !IsHeaderLike(PairText(key, value).value)
  {
    ValueBack(value, "");
    var text := PrintValue(value).value;
    var line := key + " = " + text;
    hide PrintValue, ParseValue, Classify, IsHeaderLike, DefinesKey, IsBareKey, Strip;
    PairParsed(key, text, value);
    EditorAgrees(line, "");
    StartsWithKey(key, text);
  }

  lemma StartsWithKey(key: string, text: string)
    requires LStrip(key + " = " + text) == key + " = " + text
    ensures DefinesKey(key + " = " + text, key)
  {
    hide LStrip;
    var line := key + " = " + text;
    assert line[..|key| + 1] == key + " ";
  }

  lemma PairParsed(key: string, text: string, value: Value)
    requires IsBareKey(key) && Starts(text) && ParseValue(text + "") == Some((value, ""))
    ensures Classify(key + " = " + text) == PairLine(key, value) && LStrip(key + " = " + text) == key + " = " + text
  {
    var line := key + " = " + text;
    FirstIsBare(key);
    assert line[0] == key[0];
    hide ParseValue, IsBareKey, IsBareChar;
    BareStart(line);
    KeyBack(key, text, "", value);
    assert line + "" == line;
    hide ParsePair, Classify;
  }

  lemma KeyRun(u: string, key: string)
    requires IsBareKey(key) && (key + " " <= u || key + "=" <= u)
    ensures Run(u, IsBareChar) == |key| && u[..|key|] == key
  {
    assert u == key + u[|key|..];
    RunOver(key, u[|key|..], IsBareChar);
  }

  /** The editor's key test never mistakes one line for another key's. */
  lemma DefinesKeyMeans(line: string, key: string)
    requires Classify(line) != BadLine && IsBareKey(key) && DefinesKey(line, key)
    ensures Classify(line).PairLine? && Classify(line).key == key
  {
    FirstCharacter(line);
    FirstIsBare(key);
    var u := LStrip(line);
    hide Run, Classify, IsBareKey, IsBareChar, IsSpace, TrimLeft, LStrip, IsBlank;
    KeyRun(u, key);
    assert u[0] == u[..|key|][0];
    PairKey(line);
  }

  lemma PairKey(line: string)
    requires Classify(line).PairLine?
    ensures var u := TrimLeft(line, IsBlank); Classify(line).key == u[..Run(u, IsBareChar)]
  {
    hide ParseValue, Run, TrimLeft, IsBareKey, IsBareChar, IsBlank, IsPlain;
  }

  lemma FirstIsBare(key: string)
    requires IsBareKey(key)
    ensures IsBareChar(key[0])
  {
  }
}
