/**
 * The files that edits keep in order: well-formed ones, and those that appends of
 * clean tables make of them. For each edit, when its result is such a file again.
 */
module KeptFiles {
  import opened Wrappers
  import opened TomlValue
  import opened PyText
  import opened ProfileFile
  import opened FileReading
  import opened FileEdits
  import opened FileRefinement
  import opened SetRefinement
  import opened ExactEdits
  import opened SplitRows
  import opened BrokenFiles
  import opened LooseSets

  /** Newlines only, readable, and no pair the line editor overlooks. */
  ghost predicate WellKept(text: string) {
    OnlyNewlines(text) && Read(text).Some? && Editable(SplitLines(text))
  }

  /** The rows of a text that ends in a newline. */
  function RowsOf(text: string): seq<string> {
    Rows(text)[..|Rows(text)| - 1]
  }

  /** The same of a file with values that `splitlines` would cut. */
  ghost predicate LooseKept(text: string) {
    text == Terminated(RowsOf(text)) && Loose(RowsOf(text)) && Editable(RowsOf(text))
  }

  ghost predicate Kept(text: string) {
    WellKept(text) || LooseKept(text)
  }

  /** No edit of the named profile can cut anything that it does not replace. */
  ghost predicate Untorn(text: string, name: string) {
    OnlyNewlines(text) || Tame(RowsOf(text), name)
  }

  /** A set of the key in the profile cuts nothing but the row that it replaces. */
  ghost predicate Settable(text: string, name: string, key: string) {
    OnlyNewlines(text) || OwnBreaks(RowsOf(text), name, key)
  }

  lemma RowsBack(rows: seq<string>)
    requires OneRowEach(rows)
    ensures RowsOf(Terminated(rows)) == rows
  {
    hide Rows;
    RowsOfLines(rows);
  }

  lemma LooseIsKept(rows: seq<string>)
    requires Loose(rows) && Editable(rows)
    ensures Kept(Terminated(rows))
  {
    hide Editable, CutsAreBad, ReadLines, Terminated, WellKept;
    RowsBack(rows);
  }

  lemma KeptReads(text: string)
    requires Kept(text)
    ensures Read(text).Some?
    ensures LooseKept(text) ==> ReadLines(START, RowsOf(text)).Reading? && Read(text) == Some(ReadLines(START, RowsOf(text)).doc)
  {
    hide Editable, Loose, Read, ReadLines, Terminated, OnlyNewlines, RowsOf;
    if LooseKept(text) {
      LooseRowsRead(RowsOf(text));
    }
  }

  lemma {:induction false} RowsHaveNoBreaks(rows: seq<string>)
    requires OneRowEach(rows) && OnlyNewlines(Terminated(rows))
    ensures AllNoBreaks(rows)
  {
    hide IsBreak;
    if rows != [] {
      var text, rest := Terminated(rows), Terminated(rows[1..]);
      assert forall i | 0 <= i < |rest| :: rest[i] == text[|rows[0]| + 1 + i];
      RowsHaveNoBreaks(rows[1..]);
      forall i | 0 <= i < |rows[0]|
        ensures !IsBreak(rows[0][i])
      {
        assert rows[0][i] == text[i] && rows[0][i] in rows[0];
      }
      assert forall k | 1 <= k < |rows| :: rows[k] == rows[1..][k - 1];
    }
  }

  /** A kept file without the other breaks is well-formed. */
  lemma KeptIsWell(text: string)
    requires Kept(text) && OnlyNewlines(text)
    ensures WellKept(text)
  {
    hide Editable, ReadLines, Terminated, OnlyNewlines, RowsOf, CutsAreBad, Read, SplitLines, NoBreaks, OneRowEach;
    KeptReads(text);
    if LooseKept(text) {
      RowsHaveNoBreaks(RowsOf(text));
      SplitTerminated(RowsOf(text));
    }
  }

  // ---------------------------------------------------------------- the edits

  /** Appending under a bare name keeps every clean table, whatever line separators its values hold. */
  lemma AppendKept(text: string, name: string, table: Table)
    requires Kept(text) && Read(text).Some? && Profile(name) !in Read(text).value && IsBareKey(name) && CleanTable(table)
    requires table.Valid() && AppendText(text, name, table).Ok?
    ensures var text' := AppendText(text, name, table).value;
      Kept(text') && Read(text') == Some(Read(text).value[Profile(name) := table.values])
  {
    hide OnlyNewlines, Read, Editable, IsBareKey, CleanTable, AppendText, SplitLines, Loose, ReadLines, Terminated, FormatLines, RowsOf,
         Front, FrontRows, BlockSpan, AllPieces, Kept;
    if LooseKept(text) {
      var rows := RowsOf(text);
      LooseIsKept(rows);
      KeptReads(text);
      AppendLoose(rows, name, table);
      var rows' := FrontRows(rows) + FormatLines(name, table).value;
      LooseIsKept(rows');
      LooseRowsRead(rows');
    } else {
      KeptIs(text);
      AppendMakesLoose(text, name, table);
      var rows' := Front(text) + FormatLines(name, table).value;
      LooseIsKept(rows');
      LooseRowsRead(rows');
    }
  }

  lemma KeptIs(text: string)
    ensures Kept(text) <==> WellKept(text) || LooseKept(text)
  {
    hide WellKept, LooseKept;
  }

  /** Overwriting keeps every writable table when nothing outside the block is cut. */
  lemma OverwriteKept(text: string, name: string, table: Table)
    requires Kept(text) && Read(text).Some? && Profile(name) in Read(text).value && Untorn(text, name) && WritableTable(table)
    ensures table.Valid() && OverwriteText(text, name, table).Ok?
    ensures var text' := OverwriteText(text, name, table).value;
      WellKept(text') && Read(text') == Some(Read(text).value[Profile(name) := table.values])
  {
    PrintedIsValid(table);
    hide OnlyNewlines, Read, Editable, WritableTable, OverwriteText, SplitLines, Loose, ReadLines, Terminated, RowsOf, Tame, Kept;
    KeptIs(text);
    if OnlyNewlines(text) {
      KeptIsWell(text);
      OverwriteRefines(text, name, table);
    } else {
      KeptReads(text);
      OverwriteTame(RowsOf(text), name, table);
    }
  }

  lemma RemoveKept(text: string, name: string)
    requires Kept(text) && Read(text).Some? && Profile(name) in Read(text).value && Untorn(text, name)
    ensures RemoveText(text, name).Ok?
    ensures var text' := RemoveText(text, name).value;
      WellKept(text') && Read(text') == Some(Read(text).value - {Profile(name)})
  {
    hide OnlyNewlines, Read, Editable, RemoveText, SplitLines, Loose, ReadLines, Terminated, RowsOf, Tame, Kept;
    KeptIs(text);
    if OnlyNewlines(text) {
      KeptIsWell(text);
      RemoveRefines(text, name);
    } else {
      KeptReads(text);
      RemoveTame(RowsOf(text), name);
    }
  }

  /** The lines of a file that can be set are editable, the pieces of the replaced row included. */
  lemma PiecesEditable(rows: seq<string>, name: string, key: string)
    requires Loose(rows) && Editable(rows) && OwnBreaks(rows, name, key)
    ensures Editable(AllPieces(rows))
  {
    hide Loose, Classify, NoBreaks, Pieces, AllPieces, BrokenFor, DefinesKey, LStrip, Strip;
    forall n | 0 <= n < |AllPieces(rows)|
      ensures EditableLine(AllPieces(rows)[n])
    {
      var i, j := RowOf(rows, n);
      if NoBreaks(rows[i]) {
        OnePiece(rows[i]);
        assert EditableLine(rows[i]);
      } else if j == 0 {
        BrokenRow(rows, i);
      } else {
        assert Pieces(rows[i])[1..][j - 1] == Pieces(rows[i])[j];
      }
    }
  }

  lemma SetLoose(rows: seq<string>, name: string, key: string, v: Value)
    requires Loose(rows) && Editable(rows) && BlockSpan(rows, name).Some? && OwnBreaks(rows, name, key) && IsBareKey(key) && Writable(v)
    ensures SetText(Terminated(rows), name, key, v).Ok?
    ensures ReadLines(START, rows).Reading? && Profile(name) in ReadLines(START, rows).doc
    ensures var doc, s, text' := ReadLines(START, rows).doc, Profile(name), SetText(Terminated(rows), name, key, v).value;
      WellKept(text') && Read(text') == Some(doc[s := doc[s][key := v]])
  {
    hide Loose, Classify, NoBreaks, AllPieces, OwnBreaks, Editable, EditableLine, BlockSpan, IsBareKey, Read, ReadLines, Terminated, SetText,
         SplitLines, SetLine, PairText, HiddenPair, DefinesKey, IsHeaderLike, AllNoBreaks, OnlyNewlines, PrintValue;
    var a, b := BlockSpan(rows, name).value.0, BlockSpan(rows, name).value.1;
    PairTextFacts(key, v);
    SetCleanLoose(rows, name, key, v);
    EditableHidesNothing(rows, a, b, key);
    PiecesEditable(rows, name, key);
    SplitAll(rows);
    RowsSpan(rows, name);
    var lines := AllPieces(rows);
    var start, end := BlockSpan(lines, name).value.0, BlockSpan(lines, name).value.1;
    var newLine := PairText(key, v).value;
    SetShape(Terminated(rows), name, key, v, start, end);
    LinesHaveNoBreaks(Terminated(rows));
    SetLineGood(lines, start, end, key, newLine);
    WholeLines(SetLine(lines, start, end, key, newLine));
  }

  /** Setting keeps every writable value when nothing but the replaced row is cut. */
  lemma SetKept(text: string, name: string, key: string, v: Value)
    requires Kept(text) && Read(text).Some? && Profile(name) in Read(text).value && Settable(text, name, key)
    requires IsBareKey(key) && Writable(v)
    ensures SetText(text, name, key, v).Ok?
    ensures var doc, s, text' := Read(text).value, Profile(name), SetText(text, name, key, v).value;
      WellKept(text') && Read(text') == Some(doc[s := doc[s][key := v]])
  {
    hide OnlyNewlines, Read, Editable, IsBareKey, Writable, SetText, SplitLines, BlockSpan, HiddenPair, Loose, ReadLines, Terminated, RowsOf,
         OwnBreaks, Kept, BlockAt;
    KeptIs(text);
    if OnlyNewlines(text) {
      KeptIsWell(text);
      SetRefines(text, name, key, v);
    } else {
      KeptReads(text);
      BlockInRows(RowsOf(text), name);
      SetLoose(RowsOf(text), name, key, v);
    }
  }

  /** On any kept file an edit of a profile is right exactly when nothing outside its block is cut. */
  lemma RemoveKeptExactly(text: string, name: string)
    requires Kept(text) && Read(text).Some? && Profile(name) in Read(text).value
    ensures RemoveText(text, name).Ok?
    ensures Read(RemoveText(text, name).value) == Some(Read(text).value - {Profile(name)}) <==> Untorn(text, name)
  {
    hide OnlyNewlines, Read, Editable, RemoveText, SplitLines, Loose, ReadLines, Terminated, RowsOf, Tame, Kept;
    KeptIs(text);
    if Untorn(text, name) {
      RemoveKept(text, name);
    } else {
      KeptReads(text);
      RemoveLooseExactly(RowsOf(text), name);
    }
  }

  lemma OverwriteKeptExactly(text: string, name: string, table: Table)
    requires Kept(text) && Read(text).Some? && Profile(name) in Read(text).value && table.Valid() && FormatTable(name, table).Some?
    ensures OverwriteText(text, name, table).Ok?
    ensures Read(OverwriteText(text, name, table).value) == Some(Read(text).value[Profile(name) := table.values])
      <==> WritableTable(table) && Untorn(text, name)
  {
    hide OnlyNewlines, Read, Editable, WritableTable, OverwriteText, SplitLines, Loose, ReadLines, Terminated, RowsOf, Tame, Kept, FormatTable;
    KeptIs(text);
    if OnlyNewlines(text) {
      KeptIsWell(text);
      OverwriteExactly(text, name, table);
    } else {
      KeptReads(text);
      OverwriteLooseExactly(RowsOf(text), name, table);
    }
  }

  lemma SetKeptExactly(text: string, name: string, key: string, v: Value)
    requires Kept(text) && Read(text).Some? && Profile(name) in Read(text).value && PrintValue(v).Some?
    ensures SetText(text, name, key, v).Ok?
    ensures var doc, s := Read(text).value, Profile(name);
      Read(SetText(text, name, key, v).value) == Some(doc[s := doc[s][key := v]])
      <==> IsBareKey(key) && Clean(v) && Settable(text, name, key)
  {
    hide OnlyNewlines, Read, Editable, IsBareKey, Clean, PrintValue, SetText, SplitLines, BlockSpan, HiddenPair, Loose, ReadLines, Terminated,
         RowsOf, OwnBreaks, Kept, BlockAt;
    KeptIs(text);
    if OnlyNewlines(text) {
      KeptIsWell(text);
      SetExactly(text, name, key, v);
      EditableHidesNothing(SplitLines(text), BlockSpan(SplitLines(text), name).value.0, BlockSpan(SplitLines(text), name).value.1, key);
    } else {
      KeptReads(text);
      var rows := RowsOf(text);
      BlockInRows(rows, name);
      SetLooseExactly(rows, name, key, v);
      EditableHidesNothing(rows, BlockSpan(rows, name).value.0, BlockSpan(rows, name).value.1, key);
    }
  }
}
