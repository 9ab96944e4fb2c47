/**
 * Appends of clean tables, one after another, and what they do to the next edit:
 * a table that holds one of Python's line breaks is added as it should be, and
 * then the next edit of any other profile loses the file.
 */
module BrokenFiles {
  import opened Wrappers
  import opened PyText
  import opened TomlValue
  import opened ProfileFile
  import opened LineFacts
  import opened FileReading
  import opened FileEdits
  import opened FileRefinement
  import opened FileAlgebra
  import opened SetRefinement
  import opened ExactEdits
  import opened SplitRows

  // ---------------------------------------------------------------- appending makes loose files

  /** A clean block behind readable rows: loose rows that say one profile more. */
  lemma JoinLoose(front: seq<string>, name: string, table: Table)
    requires OneRowEach(front) && CutsAreBad(front) && ReadLines(START, front).Reading?
    requires Profile(name) !in ReadLines(START, front).doc && IsBareKey(name) && CleanTable(table)
    ensures FormatLines(name, table).Some?
    ensures var rows := front + FormatLines(name, table).value;
      && Loose(rows) && (Editable(front) ==> Editable(rows))
      && DocOf(ReadLines(START, rows)) == Some(ReadLines(START, front).doc[Profile(name) := table.values])
  {
    hide ReadLines, OneRowEach, CutsAreBad, FormatLines, IsBareKey, CleanTable, Editable;
    CleanIsValid(table);
    NewBlockReads(ReadLines(START, front), name, table);
    var block := FormatLines(name, table).value;
    CleanBlock(name, table);
    BlockRows(name, table);
    BlockEditable(name, table);
    ReadConcat(START, front, block);
    RowsTogether(front, block);
  }

  lemma RowsTogether(a: seq<string>, b: seq<string>)
    ensures OneRowEach(a) && OneRowEach(b) ==> OneRowEach(a + b)
    ensures CutsAreBad(a) && CutsAreBad(b) ==> CutsAreBad(a + b)
    ensures Editable(a) && Editable(b) ==> Editable(a + b)
  {
    hide Classify, IsBreak, EditableLine;
  }

  lemma BlockEditable(name: string, table: Table)
    requires IsBareKey(name) && CleanTable(table) && FormatLines(name, table).Some?
    ensures Editable(FormatLines(name, table).value)
  {
    hide IsBareKey, Clean, Ordered, PairLines, Header, PairText, Classify, DefinesKey;
    OrderedKeys(table);
    var keys := Ordered(table);
    PairLinesAre(keys, table.values);
    FormatIs(name, table, PairLines(keys, table.values).value);
    HeaderGood(name);
    var block := FormatLines(name, table).value;
    forall i | 0 <= i < |block|
      ensures EditableLine(block[i])
    {
      if i > 0 {
        PairMeans(keys[i - 1], table.values[keys[i - 1]]);
      }
    }
  }

  lemma WholeRowsCut(rows: seq<string>)
    requires AllNoBreaks(rows)
    ensures CutsAreBad(rows)
  {
    hide Classify, IsBreak;
  }

  /** What an append of a clean table makes of a well-formed file. */
  lemma AppendMakesLoose(text: string, name: string, table: Table)
    requires OnlyNewlines(text) && Read(text).Some? && Profile(name) !in Read(text).value && IsBareKey(name) && CleanTable(table)
    ensures FormatLines(name, table).Some?
    ensures var rows := Front(text) + FormatLines(name, table).value;
      && AppendText(text, name, table) == Ok(Terminated(rows)) && Loose(rows)
      && (Editable(SplitLines(text)) ==> Editable(rows))
      && DocOf(ReadLines(START, rows)) == Some(Read(text).value[Profile(name) := table.values])
  {
    hide OnlyNewlines, BlockSpan, FormatLines, Terminated, SplitLines, Front, IsBareKey, ReadLines, AppendText, Read, Loose, Editable,
         NoBreaks, OneRowEach, CutsAreBad;
    NoBlockStands(text, name);
    FrontReads(text);
    WholeLinesAreRows(Front(text));
    WholeRowsCut(Front(text));
    JoinLoose(Front(text), name, table);
    CleanIsValid(table);
    AppendShape(text, name, table);
  }

  lemma CleanIsValid(table: Table)
    requires CleanTable(table)
    ensures table.Valid()
  {
    hide IsBareKey, Clean;
  }

  /** The one block behind the others is outside every block before it. */
  lemma LastBlockOutside(front: seq<string>, block: seq<string>, name: string, other: string, i: nat)
    requires ReadLines(START, front).Reading? && Profile(other) in ReadLines(START, front).doc
    requires Loose(front + block) && block != [] && block[0] == Header(name) && IsBareKey(name) && |front| <= i < |front + block|
    ensures BlockSpan(front + block, other).Some?
    ensures var (a, b) := BlockSpan(front + block, other).value; !(a < i < b)
  {
    hide ReadLines, BlockSpan, BlockAt, Loose, Header, IsBareKey, Classify, Strip, IsHeaderLike;
    var rows := front + block;
    BlockFound(front, other);
    var (a, b) := BlockSpan(front, other).value;
    SpanSays(front, other, a, b);
    assert rows[a] == front[a];
    SpanExists(rows, other, a);
    var (a', b') := BlockSpan(rows, other).value;
    SpanSays(rows, other, a', b');
    HeaderMeans(name);
    HeaderLooksSo(name);
    assert rows[|front|] == block[0];
  }

  lemma BlockFound(lines: seq<string>, name: string)
    requires ReadLines(START, lines).Reading? && Profile(name) in ReadLines(START, lines).doc
    ensures BlockSpan(lines, name).Some?
  {
    hide ReadLines, BlockSpan, BlockAt;
    SpanFound(lines, name);
  }

  lemma HeaderLooksSo(name: string)
    ensures IsHeaderLike(Header(name))
  {
    HeaderMeans(name);
    hide Strip, Classify;
    var h := Header(name);
    assert h[..1] == "[" && h[|h| - 1..] == "]";
  }

  /** A clean block that is not writable has a broken row. */
  lemma UnwritableBreaks(front: seq<string>, name: string, table: Table)
    returns (i: nat)
    requires IsBareKey(name) && CleanTable(table) && !WritableTable(table) && FormatLines(name, table).Some?
    ensures var rows := front + FormatLines(name, table).value; |front| <= i < |rows| && !NoBreaks(rows[i])
  {
    hide IsBareKey, CleanTable, WritableTable, FormatLines, NoBreaks, CutsAreBad;
    CleanIsValid(table);
    CleanBlock(name, table);
    var block := FormatLines(name, table).value;
    var j :| 0 <= j < |block| && !NoBreaks(block[j]);
    i := |front| + j;
  }

  /** After an append of a clean table that is not writable, the new profile's rows are broken, outside every other block. */
  lemma BrokenBehind(text: string, name: string, table: Table, other: string)
    returns (i: nat)
    requires OnlyNewlines(text) && Read(text).Some? && Profile(name) !in Read(text).value && IsBareKey(name)
    requires CleanTable(table) && !WritableTable(table) && Profile(other) in Read(text).value
    ensures FormatLines(name, table).Some?
    ensures var rows := Front(text) + FormatLines(name, table).value;
      && AppendText(text, name, table) == Ok(Terminated(rows)) && Loose(rows)
      && DocOf(ReadLines(START, rows)) == Some(Read(text).value[Profile(name) := table.values])
      && BlockSpan(rows, other).Some? && i < |rows| && !NoBreaks(rows[i])
      && var (a, b) := BlockSpan(rows, other).value; !(a < i < b)
  {
    hide OnlyNewlines, BlockSpan, FormatLines, Terminated, SplitLines, Front, IsBareKey, ReadLines, AppendText, Read, Loose, Editable,
         NoBreaks, CutsAreBad, CleanTable, WritableTable, Header;
    AppendMakesLoose(text, name, table);
    FrontReads(text);
    CleanIsValid(table);
    BlockBegins(name, table);
    i := UnwritableBreaks(Front(text), name, table);
    LastBlockOutside(Front(text), FormatLines(name, table).value, name, other, i);
  }

  lemma BlockBegins(name: string, table: Table)
    requires table.Valid() && FormatLines(name, table).Some?
    ensures FormatLines(name, table).value != [] && FormatLines(name, table).value[0] == Header(name)
  {
    hide PairLines, Ordered, Header;
  }

  lemma BreakIsElsewhere(rows: seq<string>, name: string, i: nat)
    requires BlockSpan(rows, name).Some? && i < |rows| && !NoBreaks(rows[i])
    requires var (a, b) := BlockSpan(rows, name).value; !(a < i < b) && a < b <= |rows| && NoBreaks(rows[a])
    ensures !OthersWhole(rows, name)
  {
    hide BlockSpan, NoBreaks;
    var (a, b) := BlockSpan(rows, name).value;
    assert i < a ==> rows[..a][i] == rows[i];
    assert i >= b ==> rows[b..][i - b] == rows[i];
  }

  /** Appending a clean table whose values hold such a break is right, and the next set on any other profile loses the whole file. */
  lemma AppendThenSetLoses(text: string, name: string, table: Table, other: string, key: string, v: Value)
    requires OnlyNewlines(text) && Read(text).Some? && Profile(name) !in Read(text).value && IsBareKey(name)
    requires CleanTable(table) && !WritableTable(table) && Profile(other) in Read(text).value && IsBareKey(key) && Writable(v)
    ensures AppendText(text, name, table).Ok?
    ensures var text' := AppendText(text, name, table).value;
      && Read(text') == Some(Read(text).value[Profile(name) := table.values])
      && SetText(text', other, key, v).Ok? && Read(SetText(text', other, key, v).value) == None
  {
    hide *;
    CleanIsValid(table);
    var i := BrokenBehind(text, name, table, other);
    var rows := Front(text) + FormatLines(name, table).value;
    LooseRowsRead(rows);
    BrokenForSet(rows, other, key, i);
    CleanFromWritable(v);
    SetLoses(rows, other, key, v, i);
  }

  lemma CleanFromWritable(v: Value)
    requires Writable(v)
    ensures Clean(v)
  {
    hide Clean, PrintValue, NoBreaks;
  }

  lemma LooseRowsRead(rows: seq<string>)
    requires Loose(rows)
    ensures Read(Terminated(rows)) == DocOf(ReadLines(START, rows)) && ReadLines(START, rows).Reading?
  {
    hide ReadLines, Terminated, Read, CutsAreBad;
    LooseReads(rows);
  }

  lemma BrokenForSet(rows: seq<string>, name: string, key: string, i: nat)
    requires BlockSpan(rows, name).Some? && i < |rows| && !NoBreaks(rows[i])
    requires var (a, b) := BlockSpan(rows, name).value; !(a < i < b)
    ensures BrokenFor(rows, name, key, i)
  {
    hide BlockSpan, NoBreaks, DefinesKey;
  }

  lemma LosesOthers(text: string, name: string, table: Table, other: string)
    returns (rows: seq<string>, i: nat)
    requires OnlyNewlines(text) && Read(text).Some? && Profile(name) !in Read(text).value && IsBareKey(name)
    requires CleanTable(table) && !WritableTable(table) && Profile(other) in Read(text).value
    ensures table.Valid() && AppendText(text, name, table) == Ok(Terminated(rows)) && Loose(rows)
    ensures Read(Terminated(rows)) == Some(Read(text).value[Profile(name) := table.values])
    ensures BlockSpan(rows, other).Some? && !OthersWhole(rows, other) && i < |rows| && !NoBreaks(rows[i])
    ensures var (a, b) := BlockSpan(rows, other).value; !(a < i < b)
  {
    CleanIsValid(table);
    i := BrokenBehind(text, name, table, other);
    rows := Front(text) + FormatLines(name, table).value;
    hide OnlyNewlines, BlockSpan, FormatLines, Terminated, Front, IsBareKey, ReadLines, AppendText, Read, Loose, NoBreaks, CleanTable,
         WritableTable, OthersWhole, Strip, Header, Classify, IsHeaderLike;
    LooseRowsRead(rows);
    var (a, b) := BlockSpan(rows, other).value;
    SpanSays(rows, other, a, b);
    OwnHeader(rows, other, a);
    BreakIsElsewhere(rows, other, i);
  }

  /** So does the next overwrite of any other profile, with whatever table. */
  lemma AppendThenOverwriteLoses(text: string, name: string, table: Table, other: string, second: Table)
    requires OnlyNewlines(text) && Read(text).Some? && Profile(name) !in Read(text).value && IsBareKey(name)
    requires CleanTable(table) && !WritableTable(table) && Profile(other) in Read(text).value
    requires second.Valid() && FormatTable(other, second).Some?
    ensures AppendText(text, name, table).Ok?
    ensures var text' := AppendText(text, name, table).value;
      && Read(text') == Some(Read(text).value[Profile(name) := table.values])
      && OverwriteText(text', other, second).Ok? && Read(OverwriteText(text', other, second).value) == None
  {
    hide *;
    var rows, _ := LosesOthers(text, name, table, other);
    OverwriteLoses(rows, other, second);
  }

  /** And the next removal of any other profile. */
  lemma AppendThenRemoveLoses(text: string, name: string, table: Table, other: string)
    requires OnlyNewlines(text) && Read(text).Some? && Profile(name) !in Read(text).value && IsBareKey(name)
    requires CleanTable(table) && !WritableTable(table) && Profile(other) in Read(text).value
    ensures AppendText(text, name, table).Ok?
    ensures var text' := AppendText(text, name, table).value;
      && Read(text') == Some(Read(text).value[Profile(name) := table.values])
      && RemoveText(text', other).Ok? && Read(RemoveText(text', other).value) == None
  {
    hide *;
    var rows, _ := LosesOthers(text, name, table, other);
    RemoveLoses(rows, other);
  }

  // ---------------------------------------------------------------- appending to a loose file

  /** The rows in front of a block that is appended to a loose file. */
  function FrontRows(rows: seq<string>): seq<string> {
    if Strip(Terminated(rows)) != "" then DropEmpty(rows) + [""] else []
  }

  lemma FrontRowsText(rows: seq<string>, block: seq<string>)
    requires OneRowEach(rows)
    ensures var text := Terminated(rows);
      (if Strip(text) != "" then StripNewlines(text) + "\n\n" + Terminated(block) else Terminated(block))
      == Terminated(FrontRows(rows) + block)
  {
    hide Strip, StripNewlines, DropEmpty, OneRowEach;
    var text := Terminated(rows);
    if Strip(text) != "" {
      StripTerminated(rows);
      var kept := DropEmpty(rows);
      if kept == [] {
        NewlinesAreSpaces(text);
      }
      TerminatedConcat(kept + [""], block);
      TerminatedConcat(kept, [""]);
      assert Terminated([""]) == "\n";
      hide Terminated;
      assert StripNewlines(text) + "\n\n" + Terminated(block) == StripNewlines(text) + "\n" + "\n" + Terminated(block);
    } else {
      assert [] + block == block;
    }
  }

  lemma {:induction false} RowsOfSpaces(rows: seq<string>)
    requires forall i | 0 <= i < |Terminated(rows)| :: IsSpace(Terminated(rows)[i])
    ensures forall k, i | 0 <= k < |rows| && 0 <= i < |rows[k]| :: IsSpace(rows[k][i])
  {
    hide IsSpace;
    if rows != [] {
      var text, rest := Terminated(rows), Terminated(rows[1..]);
      assert forall i | 0 <= i < |rest| :: rest[i] == text[|rows[0]| + 1 + i];
      RowsOfSpaces(rows[1..]);
      assert forall i | 0 <= i < |rows[0]| :: rows[0][i] == text[i];
      assert forall k | 1 <= k < |rows| :: rows[k] == rows[1..][k - 1];
    }
  }

  lemma BlankRowsSayNothing(rows: seq<string>)
    requires ReadLines(START, rows).Reading? && Strip(Terminated(rows)) == ""
    ensures ReadLines(START, rows) == START
  {
    hide ReadLines, Classify, Strip, IsSpace, Terminated;
    AllSpaces(Terminated(rows));
    RowsOfSpaces(rows);
    ReadableIsMeaningful(START, rows);
    forall k | 0 <= k < |rows|
      ensures Classify(rows[k]) == BlankLine
    {
      AllSpaces(rows[k]);
      EditorAgrees(rows[k], "");
    }
    BlankLinesRead(START, rows);
  }

  lemma FrontRowsRead(rows: seq<string>)
    requires Loose(rows)
    ensures ReadLines(START, FrontRows(rows)).Reading? && ReadLines(START, rows).Reading?
    ensures ReadLines(START, FrontRows(rows)).doc == ReadLines(START, rows).doc
    ensures OneRowEach(FrontRows(rows)) && CutsAreBad(FrontRows(rows)) && (Editable(rows) ==> Editable(FrontRows(rows)))
  {
    hide ReadLines, Strip, Terminated, DropEmpty, Classify, IsBreak, EditableLine;
    NothingIsLoose();
    if Strip(Terminated(rows)) != "" {
      DropEmptyRead(START, rows);
      ReadConcat(START, DropEmpty(rows), [""]);
      LastRow(ReadLines(START, DropEmpty(rows)));
      assert DropEmpty(rows) <= rows;
      RowsTogether(DropEmpty(rows), [""]);
    } else {
      BlankRowsSayNothing(rows);
    }
  }

  lemma NothingIsLoose()
    ensures OneRowEach([""]) && CutsAreBad([""]) && Editable([""]) && OneRowEach([]) && CutsAreBad([]) && Editable([])
    ensures ReadLines(START, []) == START
  {
    EmptyLineGood();
  }

  /**
   * On a loose file, too, appending a clean table adds exactly that profile,
   * unless a piece of some value looks like its header; then it is refused.
   */
  lemma AppendLoose(rows: seq<string>, name: string, table: Table)
    requires Loose(rows) && IsBareKey(name) && CleanTable(table)
    ensures ReadLines(START, rows).Reading? && table.Valid() && FormatLines(name, table).Some?
    ensures var doc, text := ReadLines(START, rows).doc, Terminated(rows);
      if BlockSpan(AllPieces(rows), name).Some? then AppendText(text, name, table) == Err(AlreadyPresent)
      else
        var rows' := FrontRows(rows) + FormatLines(name, table).value;
        && Profile(name) !in doc && AppendText(text, name, table) == Ok(Terminated(rows'))
        && Loose(rows') && (Editable(rows) ==> Editable(rows'))
        && DocOf(ReadLines(START, rows')) == Some(doc[Profile(name) := table.values])
  {
    hide BlockSpan, FormatLines, Terminated, SplitLines, FrontRows, IsBareKey, ReadLines, Editable, OneRowEach, CutsAreBad, CleanTable,
         AllPieces, StripNewlines, Strip, Header, BlockAt;
    CleanIsValid(table);
    BlockRowsExist(name, table);
    SplitAll(rows);
    if BlockSpan(AllPieces(rows), name).None? {
      BlockInRows(rows, name);
      if BlockSpan(rows, name).Some? {
        RowsSpan(rows, name);
      }
      FrontRowsRead(rows);
      JoinLoose(FrontRows(rows), name, table);
      BlockBegins(name, table);
      FormatTableIs(name, table);
      FrontRowsText(rows, FormatLines(name, table).value);
    }
  }

  lemma BlockRowsExist(name: string, table: Table)
    requires IsBareKey(name) && CleanTable(table)
    ensures table.Valid() && FormatLines(name, table).Some?
  {
    hide IsBareKey, CleanTable, FormatLines, CutsAreBad;
    CleanIsValid(table);
    CleanBlock(name, table);
  }

  // ---------------------------------------------------------------- two sets

  /** A first set on a file that is broken elsewhere, and where the meaningless line is afterwards. */
  lemma FirstSet(rows: seq<string>, name: string, key: string, v: Value, i: nat)
    returns (lines: seq<string>, start: nat, end: nat, m: nat)
    requires Loose(rows) && BlockSpan(rows, name).Some? && i < |rows| && !NoBreaks(rows[i]) && IsBareKey(key) && Writable(v)
    requires var (a, b) := BlockSpan(rows, name).value; !(a < i < b)
    ensures SetText(Terminated(rows), name, key, v) == Ok(Terminated(lines)) && AllNoBreaks(lines)
    ensures BlockSpan(lines, name) == Some((start, end)) && start < end <= |lines|
    ensures m < |lines| && (m < start || m >= end) && Classify(lines[m]) == BadLine
  {
    hide Loose, BlockSpan, Classify, Terminated, SetText, SplitLines, SetLine, DefinesKey, NoBreaks, IsBareKey, Writable, PairText,
         EditableLine, IsHeaderLike, AllPieces;
    var n := BreakElsewhere(rows, name, i);
    SplitAll(rows);
    var whole := AllPieces(rows);
    var first := BlockSpan(whole, name).value.0;
    var last := BlockSpan(whole, name).value.1;
    PairTextFacts(key, v);
    var newLine := PairText(key, v).value;
    SetShape(Terminated(rows), name, key, v, first, last);
    LinesHaveNoBreaks(Terminated(rows));
    SetLineGood(whole, first, last, key, newLine);
    SetKeepsSpan(whole, name, first, last, key, newLine);
    m := SetKeepsLine(whole, first, last, key, newLine, n);
    lines := SetLine(whole, first, last, key, newLine);
    start, end := first, last + |lines| - |whole|;
    SpanSays(lines, name, start, end);
  }

  /** Neither one set of a profile nor a second one brings back a file that is broken elsewhere. */
  lemma SetsLose(rows: seq<string>, name: string, key: string, v: Value, key': string, v': Value, i: nat)
    requires Loose(rows) && BlockSpan(rows, name).Some? && i < |rows| && !NoBreaks(rows[i])
    requires IsBareKey(key) && Writable(v) && IsBareKey(key') && Writable(v')
    requires var (a, b) := BlockSpan(rows, name).value; !(a < i < b)
    ensures SetText(Terminated(rows), name, key, v).Ok? && Read(SetText(Terminated(rows), name, key, v).value) == None
    ensures var text := SetText(Terminated(rows), name, key, v).value;
      SetText(text, name, key', v').Ok? && Read(SetText(text, name, key', v').value) == None
  {
    hide Loose, BlockSpan, Classify, Terminated, SetText, SplitLines, SetLine, DefinesKey, NoBreaks, IsBareKey, Writable, PairText,
         EditableLine, IsHeaderLike, AllPieces, Read;
    var lines, start, end, m := FirstSet(rows, name, key, v, i);
    BadTextUnreadable(lines, lines[m]);
    SplitTerminated(lines);
    PairTextFacts(key', v');
    var newLine := PairText(key', v').value;
    SetShape(Terminated(lines), name, key', v', start, end);
    SetLineGood(lines, start, end, key', newLine);
    var k := SetKeepsLine(lines, start, end, key', newLine, m);
    BadTextUnreadable(SetLine(lines, start, end, key', newLine), lines[m]);
  }
}
