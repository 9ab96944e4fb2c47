/**
 * For which tables appending and overwriting do what they should, exactly.
 *
 * Python's `splitlines` knows line breaks that TOML does not (next line, line
 * separator, paragraph separator). Overwriting splits the printed block with it,
 * so a value that holds one is cut in two; appending writes the block whole.
 */
module ExactEdits {
  import opened Wrappers
  import opened PyText
  import opened TomlValue
  import opened TomlRoundTrip
  import opened ProfileFile
  import opened LineFacts
  import opened FileReading
  import opened FileEdits
  import opened FileRefinement
  import opened SetRefinement

  /** A printed text is cut at position k: in front of a character that ends a line. */
  predicate CutAt(text: string, k: nat) {
    k < |text| && IsBreak(text[k])
  }

  // ---------------------------------------------------------------- the front part of a cut value cannot be parsed

  lemma {:induction false} CharsCut(s: string, j: nat)
    requires j <= |Escape(s)|
    ensures ParseChars(Escape(s)[..j]) == None
    decreases |s|
  {
    if s != [] && j > 0 {
      var first := if s[0] == '\\' || s[0] == '"' then ['\\', s[0]] else [s[0]];
      assert Escape(s) == first + Escape(s[1..]);
      if j >= |first| {
        CharsCut(s[1..], j - |first|);
        assert Escape(s)[..j] == first + Escape(s[1..])[..j - |first|];
        assert Escape(s)[..j][|first|..] == Escape(s[1..])[..j - |first|];
      }
    }
  }

  lemma StringCut(s: string, k: nat)
    requires CutAt(PrintString(s), k)
    ensures k > 0 && PrintString(s)[0] == '"' && ParseString(PrintString(s)[..k]) == None
  {
    hide Escape, ParseChars;
    var text := PrintString(s);
    assert text == ['"'] + Escape(s) + ['"'] && !IsBreak('"');
    CharsCut(s, k - 1);
    assert text[..k][1..] == Escape(s)[..k - 1];
  }

  lemma {:induction false} ItemsCut(items: seq<Atom>, k: nat)
    requires CleanItems(items) && CutAt(PrintItems(items), k)
    ensures k > 0 && PrintItems(items)[0] == '"' && ParseItems(PrintItems(items)[..k]) == None
    decreases |items|
  {
    hide ParseString, PrintString, SkipBlanks;
    var first := PrintString(items[0].s);
    var text := PrintItems(items);
    if k < |first| {
      assert text[..k] == first[..k] && text[k] == first[k];
      StringCut(items[0].s, k);
    } else {
      var more := PrintItems(items[1..]);
      assert text == first + (", " + more) && !IsBreak(',') && !IsBreak(' ');
      var j := k - |first| - 2;
      assert text[k] == (", " + more)[k - |first|];
      ItemsCut(items[1..], j);
      assert text[..k] == first + (", " + more[..j]);
      StringBack(items[0].s, ", " + more[..j]);
      MoreItemsCut(items[0].s, more[..j]);
      FirstOf(items[0].s);
    }
  }

  lemma FirstOf(s: string)
    ensures PrintString(s) != [] && PrintString(s)[0] == '"'
  {
  }

  lemma MoreItemsCut(first: string, tail: string)
    requires PlainText(first) && tail != [] && tail[0] == '"' && ParseItems(tail) == None
    ensures ParseItems(PrintString(first) + (", " + tail)) == None
  {
    hide ParseString, PrintString;
    StringBack(first, ", " + tail);
    assert (", " + tail)[1..] == " " + tail;
    SkipOneBlank(tail);
    assert SkipBlanks(", " + tail) == ", " + tail;
  }

  /** A key whose value cannot be parsed is no pair. */
  lemma KeyCut(key: string, t: string)
    requires IsBareKey(key) && t != [] && !IsBlank(t[0]) && ParseValue(t) == None
    ensures ParsePair(key + (" = " + t)) == None
  {
    hide ParseValue;
    var after := " = " + t;
    var s := key + after;
    RunOver(key, after, IsBareChar);
    assert s[|key|..] == after;
    assert after[1..] == "= " + t;
    assert SkipBlanks(after) == "= " + t;
    assert ("= " + t)[1..] == " " + t;
    SkipOneBlank(t);
  }

  lemma NumeralsAreNoBreaks(c: char)
    requires IsDigit(c) || c == '-'
    ensures !IsBreak(c)
  {
  }

  lemma IntHasNoBreaks(i: int)
    ensures NoBreaks(PrintInt(i))
  {
    var n := if i < 0 then -i else i;
    var digits, text := Decimal(n), PrintInt(i);
    DecimalDigits(n);
    hide IsBreak, IsDigit, Decimal;
    forall j | 0 <= j < |text|
      ensures !IsBreak(text[j])
    {
      assert i < 0 && j > 0 ==> text[j] == digits[j - 1];
      NumeralsAreNoBreaks(text[j]);
    }
  }

  lemma ListCut(items: seq<Atom>, k: nat)
    requires CleanItems(items) && CutAt("[" + PrintItems(items) + "]", k)
    ensures k > 0 && ParseValue(("[" + PrintItems(items) + "]")[..k]) == None
  {
    hide ParseItems, PrintItems, ParsePairs, ParseString;
    var body := PrintItems(items);
    var text := "[" + body + "]";
    assert !IsBreak('[') && !IsBreak(']');
    assert text[k] == body[k - 1];
    ItemsCut(items, k - 1);
    assert text[..k] == "[" + body[..k - 1] && text[..k][1..] == body[..k - 1];
  }

  lemma ScalarCut(a: Atom, k: nat)
    requires Clean(Scalar(a)) && PrintValue(Scalar(a)).Some? && CutAt(PrintValue(Scalar(a)).value, k)
    ensures k > 0 && ParseValue(PrintValue(Scalar(a)).value[..k]) == None
  {
    if a.Int? {
      IntHasNoBreaks(a.i);
    } else if a.Str? {
      hide ParseChars, PrintString, PrintInt, ParseString;
      StringCut(a.s, k);
      assert PrintValue(Scalar(a)).value[..k][0] == '"';
    }
  }

  lemma {:induction false} ValueCut(v: Value, k: nat)
    requires Clean(v) && PrintValue(v).Some? && CutAt(PrintValue(v).value, k)
    ensures k > 0 && ParseValue(PrintValue(v).value[..k]) == None
    decreases v
  {
    match v {
      case Scalar(a) => ScalarCut(a, k);
      case List(items) => ListCut(items, k);
      case Map(pairs) =>
        hide ParseValue, PrintPairs, ParsePairs, CleanPairs, IsBreak, PrintItems, PrintInt, PrintString;
        if pairs.Pair? {
          PairsBack(pairs, "");
          var body := PrintPairs(pairs).value;
          MapText(pairs, body, "");
          BraceCut(body, k);
          PairsCut(pairs, k - 2);
          MapCut(body, k);
        }
    }
  }

  /** The cut in a nested dict lies in its body. */
  lemma BraceCut(body: string, k: nat)
    requires CutAt("{ " + body + " }", k)
    ensures k >= 2 && CutAt(body, k - 2)
  {
    assert !IsBreak('{') && !IsBreak('}') && !IsBreak(' ');
    assert k >= 2 ==> ("{ " + body + " }")[k] == (body + " }")[k - 2];
  }

  lemma MapCut(body: string, k: nat)
    requires 2 < k <= |body| + 2 && Starts(body) && ParsePairs(body[..k - 2]) == None
    ensures ParseValue(("{ " + body + " }")[..k]) == None
  {
    hide ParsePairs;
    var inside := body[..k - 2];
    assert ("{ " + body + " }")[..k] == "{ " + inside;
    assert ("{ " + inside)[1..] == " " + inside;
    SkipOneBlank(inside);
  }

  lemma {:induction false} PairsCut(pairs: Pairs, k: nat)
    requires pairs.Pair? && CleanPairs(pairs) && PrintPairs(pairs).Some? && CutAt(PrintPairs(pairs).value, k)
    ensures k > 0 && ParsePairs(PrintPairs(pairs).value[..k]) == None
    decreases pairs
  {
    hide ParsePairs, ParseValue, PrintValue;
    var key, value := pairs.key, pairs.value;
    ValueBack(value, "");
    var text := PrintValue(value).value;
    var whole := PrintPairs(pairs).value;
    PairCut(key, text, whole, k);
    var j := k - |key| - 3;
    if j < |text| {
      ValueCut(value, j);
      KeyCutAway(key, text, whole, k);
    } else {
      PairsBack(pairs.rest, "");
      var more := PrintPairs(pairs.rest).value;
      assert whole == key + " = " + text + ", " + more;
      AfterPairCut(key, text, more, k);
      var i := j - |text| - 2;
      PairsCut(pairs.rest, i);
      ValueBack(value, ", " + more[..i]);
      MorePairsCut(key, value, text, more[..i]);
    }
  }

  /** No cut lies in a key or in the sign behind it. */
  lemma PairCut(key: string, text: string, whole: string, k: nat)
    requires IsBareKey(key) && key + " = " + text <= whole && CutAt(whole, k)
    ensures k >= |key| + 3 && (k - |key| - 3 < |text| ==> CutAt(text, k - |key| - 3))
  {
    var front := key + " = " + text;
    assert whole[..|front|] == front;
    assert !IsBreak(' ') && !IsBreak('=');
    assert forall i | 0 <= i < |key| :: whole[i] == key[i] && IsBareChar(key[i]) && !IsBreak(key[i]);
    assert whole[|key|..|key| + 3] == " = ";
    assert forall i | 0 <= i < |text| :: whole[|key| + 3 + i] == front[|key| + 3 + i] == text[i];
  }

  lemma KeyCutAway(key: string, text: string, whole: string, k: nat)
    requires IsBareKey(key) && key + " = " + text <= whole && |key| + 3 < k < |key| + 3 + |text|
    requires Starts(text) && ParseValue(text[..k - |key| - 3]) == None
    ensures ParsePairs(whole[..k]) == None && ParsePair((key + " = " + text)[..k]) == None
  {
    hide ParseValue, ParsePair;
    var front := key + " = " + text;
    assert whole[..k] == whole[..|front|][..k] == front[..k];
    var t := text[..k - |key| - 3];
    assert front[..k] == key + (" = " + t);
    KeyCut(key, t);
  }

  lemma AfterPairCut(key: string, text: string, more: string, k: nat)
    requires k >= |key| + 3 + |text| && CutAt(key + " = " + text + ", " + more, k)
    ensures k >= |key| + |text| + 5 && CutAt(more, k - |key| - |text| - 5)
    ensures (key + " = " + text + ", " + more)[..k] == key + " = " + text + (", " + more[..k - |key| - |text| - 5])
  {
    var front := key + " = " + text;
    var whole := front + ", " + more;
    assert whole == front + (", " + more) && !IsBreak(',') && !IsBreak(' ');
    assert whole[k] == (", " + more)[k - |front|];
    var i := k - |front| - 2;
    assert i >= 0;
    assert whole[..k] == front + (", " + more[..i]);
  }

  lemma MorePairsCut(key: string, value: Value, text: string, tail: string)
    requires IsBareKey(key) && Starts(text) && Starts(tail)
    requires ParseValue(text + (", " + tail)) == Some((value, ", " + tail)) && ParsePairs(tail) == None
    ensures ParsePairs(key + " = " + text + (", " + tail)) == None
  {
    hide ParseValue, ParsePair;
    var next := ", " + tail;
    KeyBack(key, text, next, value);
    assert next[1..] == " " + tail;
    SkipOneBlank(tail);
    assert SkipBlanks(next) == next;
  }

  // ---------------------------------------------------------------- lines

  /** The front part of a pair's line that is cut in its value means nothing. */
  lemma LineCut(key: string, v: Value, k: nat)
    requires IsBareKey(key) && Clean(v) && PairText(key, v).Some? && CutAt(PairText(key, v).value, k)
    ensures Classify(PairText(key, v).value[..k]) == BadLine
  {
    hide ParsePair, PrintValue, ParseValue, ParsePairs;
    ValueBack(v, "");
    var text := PrintValue(v).value;
    var line := key + " = " + text;
    PairCut(key, text, line, k);
    ValueCut(v, k - |key| - 3);
    KeyCutAway(key, text, line, k);
    FirstIsBare(key);
    assert line[..k][0] == key[0];
    BareStart(line[..k]);
  }

  lemma {:induction false} SplitCut(a: string, c: char, b: string)
    requires NoBreaks(a) && IsBreak(c)
    ensures SplitLines(a + [c] + b) != [] && SplitLines(a + [c] + b)[0] == a
  {
    var s := a + [c] + b;
    if a != [] {
      SplitCut(a[1..], c, b);
      assert s[1..] == a[1..] + [c] + b;
      assert !IsBreak(a[0]) && s[0] == a[0];
      assert [a[0]] + a[1..] == a;
    }
  }

  /** The first cut of a text, or its end. */
  function FirstCut(s: string): (k: nat)
    ensures k <= |s| && NoBreaks(s[..k]) && (k < |s| ==> CutAt(s, k))
  {
    if s == [] || IsBreak(s[0]) then 0 else 1 + FirstCut(s[1..])
  }

  /** Every cut through a line leaves a front part that means nothing. */
  ghost predicate CutsAreBad(lines: seq<string>) {
    forall i, k: nat | 0 <= i < |lines| && CutAt(lines[i], k) :: Classify(lines[i][..k]) == BadLine
  }

  lemma {:induction false} BadPiece(lines: seq<string>)
    returns (n: nat)
    requires CutsAreBad(lines) && !AllNoBreaks(lines)
    ensures n < |SplitLines(Terminated(lines))| && Classify(SplitLines(Terminated(lines))[n]) == BadLine
    decreases |lines|
  {
    hide Classify, IsBreak;
    var rest := Terminated(lines[1..]);
    if NoBreaks(lines[0]) {
      assert forall i | 0 <= i < |lines| - 1 :: lines[1..][i] == lines[i + 1];
      var i :| 0 <= i < |lines| && !NoBreaks(lines[i]);
      assert !NoBreaks(lines[1..][i - 1]);
      n := BadPiece(lines[1..]);
      SplitFirstLine(lines[0], rest);
      n := n + 1;
    } else {
      var k := FirstCut(lines[0]);
      var a, c, b := lines[0][..k], lines[0][k], lines[0][k + 1..] + "\n" + rest;
      assert Terminated(lines) == a + [c] + b;
      SplitCut(a, c, b);
      assert CutAt(lines[0], k);
      n := 0;
    }
  }

  // ---------------------------------------------------------------- blocks

  lemma PairLinesStep(keys: seq<string>, values: map<string, Value>)
    requires keys != [] && (forall k | k in keys :: k in values) && PairText(keys[0], values[keys[0]]).Some?
    requires PairLines(keys[1..], values).Some?
    ensures PairLines(keys, values) == Some([PairText(keys[0], values[keys[0]]).value] + PairLines(keys[1..], values).value)
  {
    hide PairText;
  }

  lemma {:induction false} PairLinesAre(keys: seq<string>, values: map<string, Value>)
    requires forall k | k in keys :: k in values && IsBareKey(k) && Clean(values[k])
    ensures PairLines(keys, values).Some?
    ensures var lines := PairLines(keys, values).value;
      |lines| == |keys| && forall i | 0 <= i < |keys| :: PairText(keys[i], values[keys[i]]) == Some(lines[i])
    decreases |keys|
  {
    if keys != [] {
      hide *;
      PairMeans(keys[0], values[keys[0]]);
      PairLinesAre(keys[1..], values);
      PairLinesStep(keys, values);
      var lines, more := PairLines(keys, values).value, PairLines(keys[1..], values).value;
      forall i | 0 <= i < |keys|
        ensures PairText(keys[i], values[keys[i]]) == Some(lines[i])
      {
        if i > 0 {
          assert keys[1..][i - 1] == keys[i] && lines[i] == more[i - 1];
        }
      }
    }
  }

  lemma PairBreaks(key: string, v: Value)
    requires IsBareKey(key) && Clean(v) && PairText(key, v).Some? && NoBreaks(PairText(key, v).value)
    ensures Writable(v)
  {
    hide Clean, PrintValue, IsBreak;
    var text, line := PrintValue(v).value, PairText(key, v).value;
    assert forall i | 0 <= i < |text| :: text[i] == line[|key| + 3 + i];
  }

  /** A block of a clean table: where its lines are cut, what is left is bad; if none is, the table is writable. */
  lemma CleanBlock(name: string, table: Table)
    requires IsBareKey(name) && CleanTable(table)
    ensures FormatLines(name, table).Some? && CutsAreBad(FormatLines(name, table).value)
    ensures AllNoBreaks(FormatLines(name, table).value) ==> WritableTable(table)
  {
    hide Writable, IsBareKey, Clean, Ordered, PairLines, Classify, PairText, NoBreaks, IsBreak, Header;
    OrderedKeys(table);
    var keys := Ordered(table);
    PairLinesAre(keys, table.values);
    var pairs := PairLines(keys, table.values).value;
    FormatIs(name, table, pairs);
    HeaderGood(name);
    var block := FormatLines(name, table).value;
    assert block == [Header(name)] + pairs;
    forall i, k: nat | 0 <= i < |block| && CutAt(block[i], k)
      ensures Classify(block[i][..k]) == BadLine
    {
      NoCut(Header(name), k);
      LineCut(keys[i - 1], table.values[keys[i - 1]], k);
    }
    if AllNoBreaks(block) {
      forall key | key in table.values
        ensures Writable(table.values[key])
      {
        var i :| 0 <= i < |keys| && keys[i] == key;
        assert block[i + 1] == pairs[i];
        PairBreaks(key, table.values[key]);
      }
    }
  }

  lemma NoCut(line: string, k: nat)
    requires NoBreaks(line)
    ensures !CutAt(line, k)
  {
  }

  // ---------------------------------------------------------------- overwriting

  lemma OverwriteLines(text: string, name: string, table: Table, start: nat, end: nat)
    requires BlockSpan(SplitLines(text), name) == Some((start, end)) && start < end <= |SplitLines(text)|
    requires table.Valid() && FormatLines(name, table).Some? && FormatLines(name, table).value != []
    ensures var lines, block := SplitLines(text), SplitLines(Terminated(FormatLines(name, table).value));
      && AllNoBreaks(lines[..start] + block + lines[end..])
      && OverwriteText(text, name, table) == Ok(Terminated(lines[..start] + block + lines[end..]))
  {
    hide BlockSpan, FormatLines, SplitLines, NoBreaks;
    JoinTerminated(FormatLines(name, table).value);
    var lines, block := SplitLines(text), SplitLines(Terminated(FormatLines(name, table).value));
    JoinTerminated(lines[..start] + block + lines[end..]);
  }

  /** Overwriting with a clean table that is not writable leaves a file that cannot be read at all. */
  lemma OverwriteClean(text: string, name: string, table: Table)
    requires OnlyNewlines(text) && Read(text).Some? && Profile(name) in Read(text).value && CleanTable(table)
    ensures OverwriteText(text, name, table).Ok?
    ensures Read(OverwriteText(text, name, table).value)
         == if WritableTable(table) then Some(Read(text).value[Profile(name) := table.values]) else None
  {
    hide OnlyNewlines, Read, BlockSpan, ReadLines, AllNoBreaks, Terminated, SplitLines, IsBareKey, CleanTable, WritableTable,
         FormatLines, Classify, CutsAreBad, OverwriteText, FormatTable;
    ReadNamesAreBare(text, name);
    if WritableTable(table) {
      OverwriteRefines(text, name, table);
    } else {
      BlockStands(text, name);
      var (start, end) := BlockSpan(SplitLines(text), name).value;
      BlockIsNotEmpty(name, table);
      CleanBlock(name, table);
      OverwriteLines(text, name, table, start, end);
      var n := BadPiece(FormatLines(name, table).value);
      var lines, block := SplitLines(text), SplitLines(Terminated(FormatLines(name, table).value));
      var all := lines[..start] + block + lines[end..];
      WholeLines(all);
      assert all[start + n] == block[n];
      BadLineUnreadable(all, start + n);
    }
  }

  lemma BlockStands(text: string, name: string)
    requires OnlyNewlines(text) && Read(text).Some? && Profile(name) in Read(text).value
    ensures BlockSpan(SplitLines(text), name).Some?
    ensures var (start, end) := BlockSpan(SplitLines(text), name).value; start < end <= |SplitLines(text)|
  {
    hide OnlyNewlines, BlockSpan, ReadLines, SplitLines, BlockAt;
    ReadText(text);
    SpanFound(SplitLines(text), name);
  }

  lemma BlockIsNotEmpty(name: string, table: Table)
    requires CleanTable(table)
    ensures table.Valid() && (FormatLines(name, table).Some? ==> FormatLines(name, table).value != [])
  {
    hide PairLines, Ordered, IsBareKey, Clean;
  }

  lemma BadLineUnreadable(lines: seq<string>, n: nat)
    requires n < |lines| && Classify(lines[n]) == BadLine
    ensures DocOf(ReadLines(START, lines)) == None
  {
    hide Classify, ReadLines;
    if ReadLines(START, lines).Reading? {
      ReadableIsMeaningful(START, lines);
    }
  }

  // ---------------------------------------------------------------- what the reader can report

  ghost predicate CleanDoc(doc: Doc) {
    forall s, k | s in doc && k in doc[s] :: IsBareKey(k) && Clean(doc[s][k])
  }

  lemma ParsedPairIsClean(u: string)
    requires ParsePair(u).Some?
    ensures IsBareKey(ParsePair(u).value.0) && Clean(ParsePair(u).value.1)
  {
    var sign := SkipBlanks(u[Run(u, IsBareChar)..]);
    hide ParseValue, Run, SkipBlanks, IsBareKey, Clean;
    ValuesClean(SkipBlanks(sign[1..]));
  }

  lemma PairIsClean(line: string)
    requires Classify(line).PairLine?
    ensures IsBareKey(Classify(line).key) && Clean(Classify(line).value)
  {
    hide ParsePair, TrimLeft, TrimRight, IsBareKey, EndsPair, Clean, PlainText;
    ParsedPairIsClean(TrimLeft(line, IsBlank));
  }

  lemma LineReadsClean(st: Reading, line: string)
    requires st.Reading? && CleanDoc(st.doc) && ReadLine(st, line).Reading?
    ensures CleanDoc(ReadLine(st, line).doc)
  {
    hide Classify, IsBareKey, Clean;
    if Classify(line).PairLine? {
      PairIsClean(line);
    }
    var next := ReadLine(st, line).doc;
    forall s, k | s in next && k in next[s]
      ensures IsBareKey(k) && Clean(next[s][k])
    {
      if s in st.doc && k in st.doc[s] {
        assert next[s][k] == st.doc[s][k];
      } else {
        assert Classify(line).PairLine? && k == Classify(line).key && next[s][k] == Classify(line).value;
      }
    }
  }

  lemma {:induction false} ReadsClean(st: Reading, lines: seq<string>)
    requires st.Reading? && CleanDoc(st.doc) && ReadLines(st, lines).Reading?
    ensures CleanDoc(ReadLines(st, lines).doc)
    decreases |lines|
  {
    hide ReadLine, CleanDoc;
    if lines != [] {
      BrokenEnds(st, lines);
      LineReadsClean(st, lines[0]);
      ReadsClean(ReadLine(st, lines[0]), lines[1..]);
    }
  }

  lemma BrokenEnds(st: Reading, lines: seq<string>)
    requires lines != [] && ReadLines(st, lines).Reading?
    ensures ReadLine(st, lines[0]).Reading?
  {
    hide Classify;
    if ReadLine(st, lines[0]).Broken? {
      BrokenStays(lines[1..]);
    }
  }

  /** Whatever a file says, its profiles are clean tables. */
  lemma ReadTablesAreClean(text: string, name: string, table: Table)
    requires table.Valid() && Read(text).Some? && Profile(name) in Read(text).value && Read(text).value[Profile(name)] == table.values
    ensures IsBareKey(name) && CleanTable(table)
  {
    hide ReadLines, IsBareKey, Clean;
    ReadNamesAreBare(text, name);
    ReadsClean(START, Rows(text));
  }

  /**
   * Overwriting replaces exactly the named profile if and only if the table is
   * writable: bare keys, clean values, and no character that `splitlines` breaks
   * lines at. It refuses exactly the tables that cannot be printed.
   */
  lemma OverwriteExactly(text: string, name: string, table: Table)
    requires OnlyNewlines(text) && Read(text).Some? && Profile(name) in Read(text).value && table.Valid()
    ensures if FormatTable(name, table).None? then OverwriteText(text, name, table) == Err(Unserializable)
      else
        && OverwriteText(text, name, table).Ok?
        && (Read(OverwriteText(text, name, table).value) == Some(Read(text).value[Profile(name) := table.values])
            <==> WritableTable(table))
  {
    hide OnlyNewlines, Read, BlockSpan, SplitLines, WritableTable, CleanTable, FormatTable;
    BlockStands(text, name);
    if FormatTable(name, table).Some? {
      var text' := OverwriteText(text, name, table).value;
      if WritableTable(table) {
        OverwriteRefines(text, name, table);
      } else if Read(text') == Some(Read(text).value[Profile(name) := table.values]) {
        ReadTablesAreClean(text', name, table);
        OverwriteClean(text, name, table);
      }
    }
  }

  // ---------------------------------------------------------------- appending

  lemma PlainConcat(a: string, b: string)
    requires PlainText(a) && PlainText(b)
    ensures PlainText(a + b)
  {
  }

  lemma {:induction false} EscapeIsPlain(s: string)
    requires PlainText(s)
    ensures PlainText(Escape(s))
  {
    if s != [] {
      EscapeIsPlain(s[1..]);
      var first := if s[0] == '\\' || s[0] == '"' then ['\\', s[0]] else [s[0]];
      assert PlainText(first);
      PlainConcat(first, Escape(s[1..]));
    }
  }

  lemma StringIsPlain(s: string)
    requires PlainText(s)
    ensures PlainText(PrintString(s))
  {
    EscapeIsPlain(s);
    hide Escape;
    assert PlainText("\"");
    PlainConcat("\"", Escape(s));
    PlainConcat("\"" + Escape(s), "\"");
  }

  lemma {:induction false} ItemsArePlain(items: seq<Atom>)
    requires CleanItems(items)
    ensures PlainText(PrintItems(items))
  {
    hide PrintString;
    if items != [] {
      StringIsPlain(items[0].s);
      ItemsArePlain(items[1..]);
      hide PlainText;
      LiteralsArePlain();
      var first := PrintString(items[0].s);
      PlainConcat(", ", PrintItems(items[1..]));
      PlainConcat(first, if |items| == 1 then "" else ", " + PrintItems(items[1..]));
    }
  }

  lemma LiteralsArePlain()
    ensures PlainText("") && PlainText(", ") && PlainText(" = ") && PlainText("{ ") && PlainText(" }") && PlainText("{}")
    ensures PlainText("[") && PlainText("]") && PlainText("true") && PlainText("false")
  {
  }

  lemma IntIsPlain(i: int)
    ensures PlainText(PrintInt(i))
  {
    var n := if i < 0 then -i else i;
    DecimalDigits(n);
    var digits := Decimal(n);
    assert forall j | 0 <= j < |digits| :: IsDigit(digits[j]) && IsPlain(digits[j]);
    assert PlainText("-") && PlainText(digits);
    hide Decimal, IsDigit;
    PlainConcat("-", digits);
  }

  lemma {:induction false} ValueIsPlain(v: Value)
    requires Clean(v) && PrintValue(v).Some?
    ensures PlainText(PrintValue(v).value)
    decreases v
  {
    LiteralsArePlain();
    match v {
      case Scalar(a) =>
        hide PrintInt, PrintString;
        if a.Int? {
          IntIsPlain(a.i);
        } else if a.Str? {
          StringIsPlain(a.s);
        }
      case List(items) =>
        ItemsArePlain(items);
        hide PlainText, PrintItems;
        PlainConcat("[", PrintItems(items));
        PlainConcat("[" + PrintItems(items), "]");
      case Map(pairs) =>
        if pairs.Pair? {
          PairsArePlain(pairs);
          hide PlainText, PrintPairs;
          var body := PrintPairs(pairs).value;
          PlainConcat("{ ", body);
          PlainConcat("{ " + body, " }");
        }
    }
  }

  lemma {:induction false} PairsArePlain(pairs: Pairs)
    requires CleanPairs(pairs) && PrintPairs(pairs).Some?
    ensures PlainText(PrintPairs(pairs).value)
    decreases pairs
  {
    LiteralsArePlain();
    if pairs.Pair? {
      ValueIsPlain(pairs.value);
      hide PrintValue;
      var text := PrintValue(pairs.value).value;
      PairIsPlain(pairs.key, text);
      if pairs.rest.Pair? {
        PairsArePlain(pairs.rest);
        var more := PrintPairs(pairs.rest).value;
        hide PlainText;
        PlainConcat(pairs.key + " = " + text, ", ");
        PlainConcat(pairs.key + " = " + text + ", ", more);
      }
    }
  }

  lemma PairIsPlain(key: string, text: string)
    requires IsBareKey(key) && PlainText(text)
    ensures PlainText(key + " = " + text)
  {
    assert PlainText(key);
    LiteralsArePlain();
    hide PlainText;
    PlainConcat(key, " = ");
    PlainConcat(key + " = ", text);
  }

  lemma {:induction false} FirstRow(line: string, rest: string)
    requires '\n' !in line
    ensures Rows(line + "\n" + rest) == [line] + Rows(rest)
  {
    var s := line + "\n" + rest;
    if line == [] {
      assert s[1..] == rest;
    } else {
      FirstRow(line[1..], rest);
      assert s[1..] == line[1..] + "\n" + rest && s[0] == line[0];
      assert [line[0]] + line[1..] == line;
    }
  }

  lemma {:induction false} RowsOfLines(lines: seq<string>)
    requires OneRowEach(lines)
    ensures Rows(Terminated(lines)) == lines + [""]
  {
    if lines != [] {
      FirstRow(lines[0], Terminated(lines[1..]));
      RowsOfLines(lines[1..]);
      assert lines + [""] == [lines[0]] + (lines[1..] + [""]);
    }
  }

  lemma PlainIsOneRow(s: string)
    ensures PlainText(s) || NoBreaks(s) ==> '\n' !in s
  {
    if '\n' in s {
      var i :| 0 <= i < |s| && s[i] == '\n';
      assert !IsPlain(s[i]) && IsBreak(s[i]);
    }
  }

  /** A block of a clean table has one row for each of its lines. */
  lemma BlockRows(name: string, table: Table)
    requires IsBareKey(name) && CleanTable(table) && FormatLines(name, table).Some?
    ensures OneRowEach(FormatLines(name, table).value)
  {
    hide IsBareKey, Clean, Ordered, PairLines, PlainText, NoBreaks, Header, PrintValue;
    OrderedKeys(table);
    var keys := Ordered(table);
    PairLinesAre(keys, table.values);
    var pairs := PairLines(keys, table.values).value;
    FormatIs(name, table, pairs);
    var block := FormatLines(name, table).value;
    forall i | 0 <= i < |block|
      ensures '\n' !in block[i]
    {
      PlainIsOneRow(block[i]);
      if i == 0 {
        HeaderGood(name);
      } else {
        assert block[i] == pairs[i - 1];
        var key := keys[i - 1];
        ValueIsPlain(table.values[key]);
        PairIsPlain(key, PrintValue(table.values[key]).value);
      }
    }
  }

  /** Appending a clean table under a bare name adds it, whatever line separators its values hold. */
  lemma AppendClean(text: string, name: string, table: Table)
    requires OnlyNewlines(text) && Read(text).Some? && Profile(name) !in Read(text).value && IsBareKey(name) && CleanTable(table)
    requires BlockSpan(SplitLines(text), name).None?
    ensures AppendText(text, name, table).Ok?
    ensures Read(AppendText(text, name, table).value) == Some(Read(text).value[Profile(name) := table.values])
  {
    hide OnlyNewlines, BlockSpan, FormatLines, Terminated, SplitLines, Front, IsBareKey, CleanTable, ReadLines, AppendText, Rows;
    FrontReads(text);
    var front := Front(text);
    NewBlockReads(ReadLines(START, front), name, table);
    BlockIsNotEmpty(name, table);
    AppendShape(text, name, table);
    var block := FormatLines(name, table).value;
    BlockRows(name, table);
    WholeLinesAreRows(front);
    RowsOfLines(front + block);
    ReadConcat(START, front, block);
    ReadConcat(START, front + block, [""]);
    LastRow(ReadLines(START, front + block));
  }

  lemma LastRow(st: Reading)
    ensures ReadLines(st, [""]) == st
  {
    EmptyIsBlank();
    hide Classify;
    BlankLinesRead(st, [""]);
  }

  /**
   * Appending adds exactly the named profile if and only if its name is a bare
   * key and its table is clean. It refuses exactly the tables that cannot be printed.
   */
  lemma AppendExactly(text: string, name: string, table: Table)
    requires OnlyNewlines(text) && Read(text).Some? && Profile(name) !in Read(text).value && table.Valid()
    ensures if FormatTable(name, table).None? then AppendText(text, name, table) == Err(Unserializable)
      else
        && AppendText(text, name, table).Ok?
        && (Read(AppendText(text, name, table).value) == Some(Read(text).value[Profile(name) := table.values])
            <==> IsBareKey(name) && CleanTable(table))
  {
    hide OnlyNewlines, Read, BlockSpan, SplitLines, CleanTable, FormatTable, IsBareKey, Strip, StripNewlines;
    NoBlockStands(text, name);
    if FormatTable(name, table).Some? {
      var text' := AppendText(text, name, table).value;
      if IsBareKey(name) && CleanTable(table) {
        AppendClean(text, name, table);
      } else if Read(text') == Some(Read(text).value[Profile(name) := table.values]) {
        ReadTablesAreClean(text', name, table);
      }
    }
  }

  lemma NoBlockStands(text: string, name: string)
    requires OnlyNewlines(text) && Read(text).Some? && Profile(name) !in Read(text).value
    ensures BlockSpan(SplitLines(text), name).None?
  {
    hide OnlyNewlines, BlockSpan, ReadLines, SplitLines, BlockAt;
    ReadText(text);
    SpanFound(SplitLines(text), name);
  }

  // ---------------------------------------------------------------- setting

  lemma PairIsOneRow(key: string, v: Value)
    requires IsBareKey(key) && Clean(v) && PairText(key, v).Some?
    ensures '\n' !in PairText(key, v).value
  {
    hide IsBareKey, Clean, PrintValue, PlainText, NoBreaks;
    ValueIsPlain(v);
    PairIsPlain(key, PrintValue(v).value);
    PlainIsOneRow(PairText(key, v).value);
  }

  lemma SetLineRows(lines: seq<string>, start: nat, end: nat, key: string, newLine: string)
    requires start < end <= |lines| && OneRowEach(lines) && '\n' !in newLine
    ensures OneRowEach(SetLine(lines, start, end, key, newLine))
  {
    hide DefinesKey, Strip;
  }

  /** What a reader makes of a file after a clean value is set under a bare key. */
  lemma SetReads(text: string, name: string, key: string, v: Value, start: nat, end: nat)
    requires BlockSpan(SplitLines(text), name) == Some((start, end)) && IsBareKey(key) && Clean(v)
    ensures start < end <= |SplitLines(text)| && PairText(key, v).Some? && SetText(text, name, key, v).Ok?
    ensures var newLine := PairText(key, v).value;
      && Classify(newLine) == PairLine(key, v)
      && Read(SetText(text, name, key, v).value) == DocOf(ReadLines(START, SetLine(SplitLines(text), start, end, key, newLine)))
  {
    hide BlockSpan, ReadLines, SplitLines, IsBareKey, Clean, PairText, Classify, Terminated, SetLine, SetText, Rows, NoBreaks, OneRowEach,
         IsHeaderLike, DefinesKey;
    var lines := SplitLines(text);
    PairMeans(key, v);
    var newLine := PairText(key, v).value;
    SetShape(text, name, key, v, start, end);
    PairIsOneRow(key, v);
    LinesHaveNoBreaks(text);
    WholeLinesAreRows(lines);
    SetLineRows(lines, start, end, key, newLine);
    var rows := SetLine(lines, start, end, key, newLine);
    RowsOfLines(rows);
    ReadConcat(START, rows, [""]);
    LastRow(ReadLines(START, rows));
  }

  /** Setting a clean value under a bare key: right, or unreadable when the block hides the key. */
  lemma SetClean(text: string, name: string, key: string, v: Value)
    requires OnlyNewlines(text) && Read(text).Some? && Profile(name) in Read(text).value && IsBareKey(key) && Clean(v)
    ensures SetText(text, name, key, v).Ok? && BlockSpan(SplitLines(text), name).Some?
    ensures var doc, s, (start, end) := Read(text).value, Profile(name), BlockSpan(SplitLines(text), name).value;
      Read(SetText(text, name, key, v).value)
      == if HiddenPair(SplitLines(text), start, end, key) then None else Some(doc[s := doc[s][key := v]])
  {
    hide OnlyNewlines, BlockSpan, ReadLines, SplitLines, BlockAt, IsBareKey, Clean, PairText, Classify, HiddenPair, SetLine, SetText, Rows;
    var lines := SplitLines(text);
    ReadText(text);
    SpanFound(lines, name);
    var (start, end) := BlockSpan(lines, name).value;
    SetReads(text, name, key, v, start, end);
    SetLines(lines, name, start, end, key, v, PairText(key, v).value);
  }

  lemma ReadPairsAreClean(text: string, s: Section, key: string, v: Value)
    requires Read(text).Some? && s in Read(text).value && key in Read(text).value[s] && Read(text).value[s][key] == v
    ensures IsBareKey(key) && Clean(v)
  {
    hide ReadLines, IsBareKey, Clean;
    ReadsClean(START, Rows(text));
  }

  lemma UnprintableIsRefused(text: string, name: string, key: string, v: Value)
    requires BlockSpan(SplitLines(text), name).Some? && PrintValue(v).None?
    ensures SetText(text, name, key, v) == Err(Unserializable)
  {
    hide BlockSpan, SplitLines, PrintValue;
  }

  lemma PrintableIsSet(text: string, name: string, key: string, v: Value)
    requires BlockSpan(SplitLines(text), name).Some? && PrintValue(v).Some?
    ensures SetText(text, name, key, v).Ok?
  {
    hide BlockSpan, SplitLines, PrintValue, SetLine, Join;
  }

  /**
   * Setting changes exactly one key of exactly the named profile if and only if
   * the key is bare, the value clean, and no line of the block defines the key
   * unseen. It refuses exactly the values that cannot be printed.
   */
  lemma SetExactly(text: string, name: string, key: string, v: Value)
    requires OnlyNewlines(text) && Read(text).Some? && Profile(name) in Read(text).value
    ensures BlockSpan(SplitLines(text), name).Some?
    ensures var doc, s, lines := Read(text).value, Profile(name), SplitLines(text);
      var (start, end) := BlockSpan(lines, name).value;
      if PrintValue(v).None? then SetText(text, name, key, v) == Err(Unserializable)
      else
        && SetText(text, name, key, v).Ok?
        && (Read(SetText(text, name, key, v).value) == Some(doc[s := doc[s][key := v]])
            <==> IsBareKey(key) && Clean(v) && !HiddenPair(lines, start, end, key))
  {
    hide OnlyNewlines, Read, BlockSpan, SplitLines, PrintValue, SetText, IsBareKey, Clean, HiddenPair;
    BlockStands(text, name);
    if PrintValue(v).None? {
      UnprintableIsRefused(text, name, key, v);
    } else {
      PrintableIsSet(text, name, key, v);
      var doc, s, text' := Read(text).value, Profile(name), SetText(text, name, key, v).value;
      if IsBareKey(key) && Clean(v) {
        SetClean(text, name, key, v);
      } else if Read(text') == Some(doc[s := doc[s][key := v]]) {
        ReadPairsAreClean(text', s, key, v);
      }
    }
  }

  // ---------------------------------------------------------------- tables

  lemma EmptyFile()
    ensures OnlyNewlines("") && Read("") == Some(map[]) && Strip("") == ""
  {
    assert Rows("") == [""];
    hide ReadLines;
    LastRow(START);
  }

  /** A printed table reads back as that one profile exactly when its name is bare and its keys and values are clean. */
  lemma TableRoundTrip(name: string, table: Table)
    requires table.Valid() && FormatTable(name, table).Some?
    ensures Read(FormatTable(name, table).value) == Some(map[Profile(name) := table.values]) <==> IsBareKey(name) && CleanTable(table)
  {
    hide Read, CleanTable, FormatTable, IsBareKey, OnlyNewlines, BlockSpan, StripNewlines, Strip;
    EmptyFile();
    AppendExactly("", name, table);
    var empty: Doc := map[];
    assert empty[Profile(name) := table.values] == map[Profile(name) := table.values];
    assert AppendText("", name, table).value == FormatTable(name, table).value;
  }

  /** Up to the order of their keys, different clean tables are printed differently. */
  lemma TablePrinterInjective(name: string, a: Table, b: Table)
    requires IsBareKey(name) && CleanTable(a) && CleanTable(b)
    requires FormatTable(name, a).Some? && FormatTable(name, a) == FormatTable(name, b)
    ensures a.values == b.values
  {
    hide Read, FormatTable, IsBareKey, Clean;
    TableRoundTrip(name, a);
    TableRoundTrip(name, b);
    var both := map[Profile(name) := a.values];
    assert both[Profile(name)] == a.values;
  }
}
