/**
 * The main results about the file editor: each operation on the text is the
 * intended operation on the tables the text stands for, and nothing more.
 */
module FileRefinement {
  import opened Wrappers
  import opened PyText
  import opened TomlValue
  import opened ProfileFile
  import opened LineFacts
  import opened FileReading
  import opened FileEdits

  // ---------------------------------------------------------------- texts and lines

  lemma ReadText(text: string)
    requires OnlyNewlines(text)
    ensures Read(text) == DocOf(ReadLines(START, SplitLines(text)))
  {
    hide ReadLine, Rows, SplitLines, OnlyNewlines;
    RowsAreLines(text);
    var lines := SplitLines(text);
    EmptyIsBlank();
    hide Classify;
    ReadConcat(START, lines, [""]);
    BlankLinesRead(ReadLines(START, lines), [""]);
  }

  /** A text made of whole lines is read line by line. */
  lemma WholeLines(lines: seq<string>)
    requires AllNoBreaks(lines)
    ensures var text := Terminated(lines);
      OnlyNewlines(text) && SplitLines(text) == lines && Read(text) == DocOf(ReadLines(START, lines))
  {
    hide *;
    SplitTerminated(lines);
    TerminatedOnlyNewlines(lines);
    ReadText(Terminated(lines));
  }

  /** The reader only ever reports bare profile names. */
  lemma {:induction false} NamesAreBare(st: Reading, lines: seq<string>, name: string)
    requires ReadLines(st, lines).Reading? && Profile(name) in ReadLines(st, lines).doc
    ensures (st.Reading? && Profile(name) in st.doc) || IsBareKey(name)
    decreases |lines|
  {
    hide ReadLine, Classify, IsBareKey;
    Sections(st, lines, Profile(name));
    if st.Reading? && Profile(name) !in st.doc {
      var i :| 0 <= i < |lines| && Classify(lines[i]) == HeaderLine(Profile(name));
      HeaderNamesAreBare(lines[i]);
    }
  }

  lemma HeaderNamesAreBare(line: string)
    requires Classify(line).HeaderLine? && Classify(line).section.Profile?
    ensures IsBareKey(Classify(line).section.name)
  {
    hide IsBareKey, ParsePair, TrimLeft, TrimRight;
  }

  lemma ReadNamesAreBare(text: string, name: string)
    requires Read(text).Some? && Profile(name) in Read(text).value
    ensures IsBareKey(name)
  {
    NamesAreBare(START, Rows(text), name);
  }

  /** The lines that editing keeps: a block's neighbours. */
  lemma KeptLines(lines: seq<string>, start: nat, end: nat, block: seq<string>)
    requires start <= end <= |lines| && AllNoBreaks(lines) && AllNoBreaks(block)
    ensures AllNoBreaks(lines[..start] + block + lines[end..])
    ensures Editable(lines) && Editable(block) ==> Editable(lines[..start] + block + lines[end..])
  {
    hide NoBreaks, EditableLine;
  }

  // ---------------------------------------------------------------- overwrite

  lemma OverwriteShape(text: string, name: string, table: Table, start: nat, end: nat)
    requires BlockSpan(SplitLines(text), name) == Some((start, end)) && IsBareKey(name) && WritableTable(table)
    ensures FormatLines(name, table).Some? && AllNoBreaks(FormatLines(name, table).value)
    ensures var lines := SplitLines(text);
      OverwriteText(text, name, table) == Ok(Terminated(lines[..start] + FormatLines(name, table).value + lines[end..]))
  {
    hide BlockSpan, FormatLines, FormatTable, Writable, IsBareKey, IsHeaderLike, GoodLines, Editable, Classify;
    NewBlockLines(name, table);
    var lines, block := SplitLines(text), FormatLines(name, table).value;
    SplitTerminated(block);
    hide SplitLines, AllNoBreaks, Terminated;
    JoinTerminated(lines[..start] + block + lines[end..]);
  }

  /** Overwriting replaces exactly the named profile, and reports a profile the file does not have. */
  lemma OverwriteRefines(text: string, name: string, table: Table)
    requires OnlyNewlines(text) && Read(text).Some? && WritableTable(table)
    ensures var doc := Read(text).value;
      && (Profile(name) !in doc ==> OverwriteText(text, name, table) == Err(NotFound))
      && (Profile(name) in doc ==>
        && OverwriteText(text, name, table).Ok?
        && OnlyNewlines(OverwriteText(text, name, table).value)
        && Read(OverwriteText(text, name, table).value) == Some(doc[Profile(name) := table.values])
        && (Editable(SplitLines(text)) ==> Editable(SplitLines(OverwriteText(text, name, table).value))))
  {
    hide OnlyNewlines, Read, Writable, BlockSpan, ReadLines, Editable, BlockAt, FormatTable, FormatLines, AllNoBreaks,
         Terminated, SplitLines, Ordered, IsBareKey, GoodLines, SameBut;
    var lines, s := SplitLines(text), Profile(name);
    ReadText(text);
    SpanFound(lines, name);
    if s in Read(text).value {
      var (start, end) := BlockSpan(lines, name).value;
      ReadNamesAreBare(text, name);
      OverwriteShape(text, name, table, start, end);
      NewBlockLines(name, table);
      OverwrittenLines(lines, name, table, start, end);
      LinesHaveNoBreaks(text);
      KeptLines(lines, start, end, FormatLines(name, table).value);
      WholeLines(lines[..start] + FormatLines(name, table).value + lines[end..]);
    }
  }

  lemma LinesHaveNoBreaks(text: string)
    ensures AllNoBreaks(SplitLines(text))
  {
  }

  lemma OverwrittenLines(lines: seq<string>, name: string, table: Table, start: nat, end: nat)
    requires ReadLines(START, lines).Reading? && start < end <= |lines| && BlockAt(lines, name, start, end)
    requires IsBareKey(name) && table.Valid() && WritableTable(table)
    ensures FormatLines(name, table).Some?
    ensures DocOf(ReadLines(START, lines[..start] + FormatLines(name, table).value + lines[end..]))
         == Some(ReadLines(START, lines).doc[Profile(name) := table.values])
  {
    hide ReadLines, WritableTable, FormatLines, BlockAt, IsBareKey, SameBut;
    var s := Profile(name);
    var before, _ := BlockReads(lines, name, start, end);
    WritableIsClean(table);
    NewBlockReads(before, name, table);
    OwnUpdate(before.doc, s, table.values);
    ReplaceBlock(lines, name, start, end, FormatLines(name, table).value);
    var r := ReadLines(START, lines[..start] + FormatLines(name, table).value + lines[end..]);
    UpdateIs(ReadLines(START, lines).doc, r.doc, s, table.values);
  }

  // ---------------------------------------------------------------- remove

  /** A block is followed by a header or nothing, so there are no blank lines to swallow. */
  lemma NothingSwallowed(lines: seq<string>, end: nat)
    requires end <= |lines| && (end < |lines| ==> IsHeaderLike(lines[end]))
    ensures Find(lines, end, line => Strip(line) != "") == end
  {
    hide Strip;
    assert end < |lines| ==> "[" <= Strip(lines[end]);
  }

  lemma RemoveShape(text: string, name: string, start: nat, end: nat)
    requires BlockSpan(SplitLines(text), name) == Some((start, end))
    ensures RemoveText(text, name) == Ok(Terminated(DropEmpty(SplitLines(text)[..start] + SplitLines(text)[end..])))
  {
    var lines := SplitLines(text);
    LinesHaveNoBreaks(text);
    SpanEnds(lines, name, start, end);
    hide IsHeaderLike, Strip, Header, SplitLines, Terminated, AllNoBreaks, BlockSpan, StripNewlines, DropEmpty, Join;
    NothingSwallowed(lines, end);
    var kept := lines[..start] + lines[end..];
    KeptLinesGood(lines, start, end);
    JoinStripped(kept);
  }

  lemma SpanEnds(lines: seq<string>, name: string, start: nat, end: nat)
    requires BlockSpan(lines, name) == Some((start, end))
    ensures start < end <= |lines| && (end < |lines| ==> IsHeaderLike(lines[end]))
  {
    hide IsHeaderLike, Strip, Header;
  }

  lemma KeptLinesGood(lines: seq<string>, start: nat, end: nat)
    requires start <= end <= |lines| && AllNoBreaks(lines)
    ensures AllNoBreaks(lines[..start] + lines[end..])
  {
    hide NoBreaks;
  }

  lemma JoinStripped(lines: seq<string>)
    requires AllNoBreaks(lines)
    ensures var t := StripNewlines(Join("\n", lines)); (if t != "" then t + "\n" else "") == Terminated(DropEmpty(lines))
  {
    hide *;
    WholeLinesAreRows(lines);
    StripTerminated(lines);
    if lines != [] {
      JoinTerminated(lines);
      StripNewlinesStep(Join("\n", lines));
    } else {
      NothingJoined();
    }
    if DropEmpty(lines) != [] {
      NonEmptyText(DropEmpty(lines));
    } else {
      NothingJoined();
    }
  }

  lemma NothingJoined()
    ensures StripNewlines(Join("\n", [])) == "" && Terminated([]) == "" && DropEmpty([]) == []
  {
  }

  lemma NonEmptyText(lines: seq<string>)
    requires lines != [] && lines[|lines| - 1] != ""
    ensures |Terminated(lines)| > 1
  {
  }

  /** Removing drops exactly the named profile, and reports a profile the file does not have. */
  lemma RemoveRefines(text: string, name: string)
    requires OnlyNewlines(text) && Read(text).Some?
    ensures var doc := Read(text).value;
      && (Profile(name) !in doc ==> RemoveText(text, name) == Err(NotFound))
      && (Profile(name) in doc ==>
        && RemoveText(text, name).Ok?
        && OnlyNewlines(RemoveText(text, name).value)
        && Read(RemoveText(text, name).value) == Some(doc - {Profile(name)})
        && (Editable(SplitLines(text)) ==> Editable(SplitLines(RemoveText(text, name).value))))
  {
    hide OnlyNewlines, Read, BlockSpan, ReadLines, Editable, BlockAt, AllNoBreaks, Terminated, SplitLines, SameBut, DropEmpty;
    var lines, s := SplitLines(text), Profile(name);
    ReadText(text);
    SpanFound(lines, name);
    if s in Read(text).value {
      var (start, end) := BlockSpan(lines, name).value;
      RemoveShape(text, name, start, end);
      LinesHaveNoBreaks(text);
      var kept := lines[..start] + lines[end..];
      RemovedLines(lines, name, start, end);
      DropEmptyRead(START, kept);
      RemovedLinesGood(lines, start, end);
      WholeLines(DropEmpty(kept));
    }
  }

  lemma RemovedLinesGood(lines: seq<string>, start: nat, end: nat)
    requires start <= end <= |lines| && AllNoBreaks(lines)
    ensures AllNoBreaks(DropEmpty(lines[..start] + lines[end..]))
    ensures Editable(lines) ==> Editable(DropEmpty(lines[..start] + lines[end..]))
  {
    hide NoBreaks, EditableLine;
  }

  lemma RemovedLines(lines: seq<string>, name: string, start: nat, end: nat)
    requires ReadLines(START, lines).Reading? && start < end <= |lines| && BlockAt(lines, name, start, end)
    ensures DocOf(ReadLines(START, lines[..start] + lines[end..])) == Some(ReadLines(START, lines).doc - {Profile(name)})
  {
    hide *;
    var s := Profile(name);
    var before, _ := BlockReads(lines, name, start, end);
    assert lines[..start] + [] + lines[end..] == lines[..start] + lines[end..];
    NothingRead(before);
    SameButSelf(before.doc, s);
    ReplaceBlock(lines, name, start, end, []);
    var r := ReadLines(START, lines[..start] + lines[end..]);
    SameAbsent(before.doc, r.doc, s);
    RemovalIs(ReadLines(START, lines).doc, r.doc, s);
    DocOfReading(r);
  }

  lemma SameButSelf(d: Doc, s: Section)
    ensures SameBut(d, d, s)
  {
  }

  lemma SameAbsent(d: Doc, e: Doc, s: Section)
    requires SameAt(d, e, s) && s !in d
    ensures s !in e
  {
  }

  lemma DocOfReading(r: Reading)
    requires r.Reading?
    ensures DocOf(r) == Some(r.doc)
  {
  }

  lemma NothingRead(st: Reading)
    ensures ReadLines(st, []) == st
  {
  }

  lemma RemovalIs(d: Doc, e: Doc, s: Section)
    requires SameBut(d, e, s) && s !in e
    ensures e == d - {s}
  {
    forall t
      ensures t in e <==> t in d - {s}
      ensures t in e ==> e[t] == (d - {s})[t]
    {
      assert t != s ==> SameAt(d, e, t);
    }
  }

  // ---------------------------------------------------------------- append

  lemma AllSpaces(s: string)
    ensures (forall i | 0 <= i < |s| :: IsSpace(s[i])) <==> Strip(s) == ""
  {
    hide IsSpace, TrimLeft, TrimRight;
    var l := LStrip(s);
    TrimLeftSays(s, IsSpace);
    TrimRightSays(l, IsSpace);
    assert forall i | |s| - |l| <= i < |s| :: s[i] == l[i - (|s| - |l|)];
  }

  lemma {:induction false} LinesOfSpaces(s: string)
    requires forall i | 0 <= i < |s| :: IsSpace(s[i])
    ensures forall k, i | 0 <= k < |SplitLines(s)| && 0 <= i < |SplitLines(s)[k]| :: IsSpace(SplitLines(s)[k][i])
    decreases |s|
  {
    hide IsSpace, IsBreak;
    if s != [] {
      if s[0] == '\r' && |s| > 1 && s[1] == '\n' {
        LinesOfSpaces(s[2..]);
      } else {
        LinesOfSpaces(s[1..]);
      }
    }
  }

  /** A readable file of nothing but spaces has no tables. */
  lemma BlankFileIsEmpty(text: string)
    requires OnlyNewlines(text) && Read(text).Some? && Strip(text) == ""
    ensures Read(text) == Some(map[])
  {
    hide ReadLine, Classify, SplitLines, OnlyNewlines, IsSpace, Read;
    ReadText(text);
    var lines := SplitLines(text);
    ReadableIsMeaningful(START, lines);
    AllSpaces(text);
    LinesOfSpaces(text);
    forall i | 0 <= i < |lines|
      ensures Classify(lines[i]) == BlankLine
    {
      AllSpaces(lines[i]);
      EditorAgrees(lines[i], "");
    }
    BlankLinesRead(START, lines);
  }

  /** The lines in front of an appended block. */
  function Front(text: string): seq<string> {
    if Strip(text) != "" then DropEmpty(SplitLines(text)) + [""] else []
  }

  lemma NewlinesAreSpaces(text: string)
    requires StripNewlines(text) == ""
    ensures Strip(text) == ""
  {
    TrimRightSays(text, (c: char) => c == '\n');
    AllSpaces(text);
  }

  lemma FrontText(text: string, block: seq<string>)
    requires OnlyNewlines(text)
    ensures (if Strip(text) != "" then StripNewlines(text) + "\n\n" + Terminated(block) else Terminated(block))
         == Terminated(Front(text) + block)
  {
    hide OnlyNewlines, Strip, SplitLines, StripNewlines, DropEmpty, IsBreak, NoBreaks;
    if Strip(text) != "" {
      StripText(text);
      var kept := DropEmpty(SplitLines(text));
      if kept == [] {
        NewlinesAreSpaces(text);
      }
      TerminatedConcat(kept + [""], block);
      TerminatedConcat(kept, [""]);
      assert Terminated([""]) == "\n";
      hide Terminated;
      assert StripNewlines(text) + "\n\n" + Terminated(block) == StripNewlines(text) + "\n" + "\n" + Terminated(block);
    } else {
      assert [] + block == block;
    }
  }

  /** The old lines, an empty one between, and the block: for every table that can be printed. */
  lemma AppendShape(text: string, name: string, table: Table)
    requires OnlyNewlines(text) && BlockSpan(SplitLines(text), name).None? && table.Valid() && FormatLines(name, table).Some?
    ensures AppendText(text, name, table) == Ok(Terminated(Front(text) + FormatLines(name, table).value))
  {
    hide OnlyNewlines, BlockSpan, PairLines, Ordered, Terminated, SplitLines, Strip, StripNewlines, Front, Header;
    assert FormatLines(name, table).value != [];
    JoinTerminated(FormatLines(name, table).value);
    hide FormatLines;
    FrontText(text, FormatLines(name, table).value);
  }

  lemma FrontReads(text: string)
    requires OnlyNewlines(text) && Read(text).Some?
    ensures DocOf(ReadLines(START, Front(text))) == Read(text)
    ensures AllNoBreaks(Front(text)) && (Editable(SplitLines(text)) ==> Editable(Front(text)))
  {
    hide ReadLine, OnlyNewlines, SplitLines, DropEmpty, Read, Strip, NoBreaks, EditableLine;
    if Strip(text) != "" {
      ReadText(text);
      var lines := SplitLines(text);
      LinesHaveNoBreaks(text);
      DropEmptyRead(START, lines);
      ReadConcat(START, DropEmpty(lines), [""]);
      EmptyIsBlank();
      assert NoBreaks("") && EditableLine("") by {
        EmptyLineGood();
      }
      DropEmptyGood(lines);
      hide Classify;
      BlankLinesRead(ReadLines(START, DropEmpty(lines)), [""]);
    } else {
      BlankFileIsEmpty(text);
    }
  }

  lemma EmptyLineGood()
    ensures NoBreaks("") && EditableLine("")
    ensures AllNoBreaks([""]) && AllNoBreaks([])
  {
  }

  lemma DropEmptyGood(lines: seq<string>)
    requires AllNoBreaks(lines)
    ensures AllNoBreaks(DropEmpty(lines)) && (Editable(lines) ==> Editable(DropEmpty(lines)))
  {
    hide NoBreaks, EditableLine;
  }

  lemma JoinGood(a: seq<string>, b: seq<string>)
    requires AllNoBreaks(a) && AllNoBreaks(b)
    ensures AllNoBreaks(a + b) && (Editable(a) && Editable(b) ==> Editable(a + b))
  {
    hide NoBreaks, EditableLine;
  }

  lemma FormatWorks(name: string, table: Table)
    requires WritableTable(table)
    ensures FormatTable(name, table).Some?
  {
    TableIsWritable(table);
    AllKeysKept(table);
    hide Ordered, Writable, IsBareKey, GoodLines, Join, Header, PairLines;
    PairLinesGood(Ordered(table), table.values);
  }

  /**
   * Appending adds exactly the named profile if and only if its name is a bare
   * key (nothing in the program checks that), and refuses one that is present.
   */
  lemma AppendRefines(text: string, name: string, table: Table)
    requires OnlyNewlines(text) && Read(text).Some? && WritableTable(table)
    ensures var doc := Read(text).value;
      && (Profile(name) in doc ==> AppendText(text, name, table) == Err(AlreadyPresent))
      && (Profile(name) !in doc ==>
        && AppendText(text, name, table).Ok?
        && (IsBareKey(name) <==> Read(AppendText(text, name, table).value) == Some(doc[Profile(name) := table.values]))
        && (IsBareKey(name) ==>
          && OnlyNewlines(AppendText(text, name, table).value)
          && (Editable(SplitLines(text)) ==> Editable(SplitLines(AppendText(text, name, table).value)))))
  {
    hide OnlyNewlines, Read, Writable, BlockSpan, ReadLines, Editable, BlockAt, FormatTable, FormatLines, AllNoBreaks,
         Terminated, SplitLines, Ordered, IsBareKey, GoodLines, SameBut, Front, Strip, StripNewlines;
    var s := Profile(name);
    ReadText(text);
    SpanFound(SplitLines(text), name);
    FormatWorks(name, table);
    if s !in Read(text).value {
      var text' := AppendText(text, name, table).value;
      if IsBareKey(name) {
        NewBlockLines(name, table);
        AppendShape(text, name, table);
        FrontReads(text);
        var front, block := Front(text), FormatLines(name, table).value;
        WritableIsClean(table);
        NewBlockReads(ReadLines(START, front), name, table);
        ReadConcat(START, front, block);
        JoinGood(front, block);
        WholeLines(front + block);
      } else if Read(text') == Some(Read(text).value[s := table.values]) {
        ReadNamesAreBare(text', name);
      }
    }
  }
}
